/** Conservation over whole runs of the governance manager, restarts and configuration
    changes included. */
module GovernanceConservation {
  import opened GovernanceBook
  import opened GovernancePolicy
  import opened Governance

  lemma {:induction false} NewReservationCanOpen(b: Book, id: string, adm: Admission, keys: seq<Key>, attemptId: string,
                                                 window: int, amount: Amount)
    requires id !in b.reservations && adm.principal != "" && KeysFor(keys, adm.principal) && amount.tokens >= 0
    requires amount.cost >= 0
    ensures CanOpen(b, id, NewReservation(adm, keys), attemptId, NewAttempt(window, amount, keys))
  {
    var r := NewReservation(adm, keys);
    assert Holding(r, Tokens) == 0 && Holding(r, Cost) == 0;
  }

  /** What an admission does to the book: nothing, or one attempt of a new reservation that was
      judged to fit. */
  lemma {:induction false} AdmitShape(g: Gov, h: Gov, rawId: string, raw: Admission, now: nat, healthy: bool, ok: bool,
                                      id: string, adm: Admission, keys: seq<Key>, amount: Amount)
    requires h == AdmitStep(g, rawId, raw, now, healthy, ok).0 && id == Glob.Trim(rawId) && adm == Normalize(raw)
    requires keys == BudgetKeys(g.config, adm) && amount == Amounts(g.config, g.estimates, adm.model, keys)
    ensures h.config == g.config
    ensures h.book == g.book
         || (&& id !in g.book.reservations
             && JudgeAttempts(g.config, g.book, id, WindowOf(now), keys, amount, |keys|) == Fits
             && h.book == OpenAttempt(g.book, id, NewReservation(adm, keys), FIRST_ATTEMPT,
                                      NewAttempt(WindowOf(now), amount, keys)))
  {}

  lemma {:induction false} AdmitConserves(g: Gov, rawId: string, raw: Admission, now: nat, healthy: bool, ok: bool)
    requires Conserved(g.book)
    ensures Conserved(AdmitStep(g, rawId, raw, now, healthy, ok).0.book)
  {
    var id, adm := Glob.Trim(rawId), Normalize(raw);
    var keys := BudgetKeys(g.config, adm);
    var amount := Amounts(g.config, g.estimates, adm.model, keys);
    BudgetKeysShape(g.config, adm);
    if id !in g.book.reservations {
      NewReservationCanOpen(g.book, id, adm, keys, FIRST_ATTEMPT, WindowOf(now), amount);
      OpenAttemptConserves(g.book, id, NewReservation(adm, keys), FIRST_ATTEMPT,
                           NewAttempt(WindowOf(now), amount, keys));
    }
  }

  lemma {:induction false} BindConserves(g: Gov, id: string, raw: string, now: nat, ok: bool)
    requires Conserved(g.book)
    ensures Conserved(BindStep(g, id, raw, now, ok).0.book)
  {
    var op := Bind(id, raw, now, ok);
    if Moves(g, op) {
      var r := g.book.reservations[id];
      MovingBinding(g, op);
      BudgetKeysShape(g.config, AdmissionOf(r).(upstream := Glob.Trim(raw)));
      RebindConserves(g.book, id, Glob.Trim(raw), BindingKeys(g, id, raw),
                      BindingAmounts(r, BindingAmount(g, id, raw)));
    } else {
      StillBinding(g, op);
    }
  }

  lemma {:induction false} OpenStepConserves(g: Gov, id: string, attemptId: string, now: nat, ok: bool)
    requires Conserved(g.book) && id in g.book.reservations && attemptId !in g.book.reservations[id].attempts
    ensures Conserved(OpenStep(g, id, attemptId, now, ok).0.book)
  {
    var r := g.book.reservations[id];
    var amount := Amounts(g.config, g.estimates, r.model, r.keys);
    OpenAttemptConserves(g.book, id, r, attemptId, NewAttempt(WindowOf(now), amount, r.keys));
  }

  /** In a conserved book an attempt without a settlement is open. */
  lemma {:induction false} UnsettledIsOpen(b: Book, id: string, i: string)
    requires Conserved(b) && id in b.reservations
    requires i in b.reservations[id].attempts && i !in b.reservations[id].settlements
    ensures Open(b.reservations[id].attempts[i])
  {
    assert AttemptValid(b.reservations[id].attempts[i], b.reservations[id]);
  }

  lemma {:induction false} SettleStepConserves(g: Gov, id: string, settlementId: string, usage: Reported, now: nat,
                                               ok: bool)
    requires Conserved(g.book) && ReportedInRange(usage) && id in g.book.reservations
    requires settlementId in g.book.reservations[id].attempts && settlementId !in g.book.reservations[id].settlements
    ensures Conserved(SettleStep(g, id, settlementId, usage, now, ok).0.book)
  {
    UnsettledIsOpen(g.book, id, settlementId);
    SettleConserves(g.book, id, settlementId, usage.known, UsageTotal(usage),
                    UsageCost(g.config, g.book.reservations[id].model, usage));
  }

  lemma {:induction false} OpenStepOpens(g: Gov, id: string, attemptId: string, now: nat, ok: bool)
    requires Conserved(g.book) && id in g.book.reservations && attemptId !in g.book.reservations[id].attempts
    requires OpenStep(g, id, attemptId, now, ok).1 == Done
    ensures var h := OpenStep(g, id, attemptId, now, ok).0;
      && id in h.book.reservations && attemptId in h.book.reservations[id].attempts
      && attemptId !in h.book.reservations[id].settlements
  {
    assert ReservationValid(g.book.reservations[id]);
  }

  lemma {:induction false} RecordConserves(g: Gov, id: string, raw: string, usage: Reported, now: nat, okOpen: bool,
                                           ok: bool)
    requires Conserved(g.book) && ReportedInRange(usage)
    ensures Conserved(RecordStep(g, id, raw, usage, now, okOpen, ok).0.book)
  {
    var i := Glob.Trim(raw);
    if ValidId(i) && id in g.book.reservations && i !in g.book.reservations[id].settlements {
      if i in g.book.reservations[id].attempts {
        SettleStepConserves(g, id, i, usage, now, ok);
      } else {
        OpenStepConserves(g, id, i, now, okOpen);
        var (h, outcome) := OpenStep(g, id, i, now, okOpen);
        if outcome == Done {
          OpenStepOpens(g, id, i, now, okOpen);
          SettleStepConserves(h, id, i, usage, now, ok);
        }
      }
    }
  }

  /** Settlement identifiers are idempotent: once one has been recorded, reporting it again,
      with whatever usage and at whatever time, changes nothing. */
  lemma {:induction false} SettledOnce(g: Gov, id: string, raw: string, first: Reported, again: Reported, now: nat,
                                       later: nat, okOpen: bool, ok: bool)
    requires ReportedInRange(first) && ReportedInRange(again)
    requires RecordStep(g, id, raw, first, now, okOpen, ok).1 == Done
    ensures var h := RecordStep(g, id, raw, first, now, okOpen, ok).0;
      RecordStep(h, id, raw, again, later, okOpen, ok) == (h, Done)
  {
    var i := Glob.Trim(raw);
    var h := RecordStep(g, id, raw, first, now, okOpen, ok).0;
    if i !in g.book.reservations[id].settlements {
      var mid := if i in g.book.reservations[id].attempts then g else OpenStep(g, id, i, now, okOpen).0;
      SettleLeaves(mid, h, id, i, first, now, ok);
    }
  }

  lemma {:induction false} SettleLeaves(g: Gov, h: Gov, id: string, i: string, usage: Reported, now: nat, ok: bool)
    requires ReportedInRange(usage) && id in g.book.reservations && i in g.book.reservations[id].attempts
    requires SettleStep(g, id, i, usage, now, ok) == (h, Done)
    ensures id in h.book.reservations && i in h.book.reservations[id].settlements
    ensures h.book.reservations[id].settlements[i] == UsageCost(g.config, g.book.reservations[id].model, usage)
  {}

  /** What a settlement costs, the first time it is reported and whenever it is reported again. */
  function CostOf(g: Gov, id: string, raw: string, usage: Reported): int
    requires ReportedInRange(usage) && id in g.book.reservations
  {
    var r, i := g.book.reservations[id], Glob.Trim(raw);
    if i in r.settlements then r.settlements[i] else UsageCost(g.config, r.model, usage)
  }

  /** The cost is remembered with the settlement, so that a repeated report is told the first
      one, whatever it says itself. */
  lemma {:induction false} SettledCost(g: Gov, id: string, raw: string, first: Reported, again: Reported, now: nat,
                                       okOpen: bool, ok: bool)
    requires ReportedInRange(first) && ReportedInRange(again)
    requires RecordStep(g, id, raw, first, now, okOpen, ok).1 == Done
    ensures var h := RecordStep(g, id, raw, first, now, okOpen, ok).0;
      && id in g.book.reservations && id in h.book.reservations
      && CostOf(h, id, raw, again) == CostOf(g, id, raw, first)
  {
    var i := Glob.Trim(raw);
    var h := RecordStep(g, id, raw, first, now, okOpen, ok).0;
    if i !in g.book.reservations[id].settlements {
      var mid := if i in g.book.reservations[id].attempts then g else OpenStep(g, id, i, now, okOpen).0;
      SettleLeaves(mid, h, id, i, first, now, ok);
    }
  }

  lemma {:induction false} DropEachConserves(b: Book, order: seq<string>)
    requires Conserved(b)
    ensures Conserved(DropEach(b, order))
    decreases |order|
  {
    if order != [] {
      DropEachConserves(b, order[..|order| - 1]);
      DropConserves(DropEach(b, order[..|order| - 1]), order[|order| - 1]);
    }
  }

  lemma {:induction false} DropEachKeys(b: Book, order: seq<string>)
    ensures DropEach(b, order).reservations.Keys == b.reservations.Keys - (set id | id in order)
    decreases |order|
  {
    if order != [] {
      var n := |order| - 1;
      DropEachKeys(b, order[..n]);
      assert order == order[..n] + [order[n]];
      var c := DropEach(b, order[..n]);
      assert Drop(c, order[n]).reservations.Keys == c.reservations.Keys - {order[n]};
    }
  }

  /** Every operation of the running process keeps the book conserved. */
  lemma {:induction false} StepConserves(g: Gov, op: Op)
    requires Conserved(g.book) && Possible(g, op) && !op.Restart?
    ensures Conserved(Step(g, op).book)
  {
    match op
    case Apply(_) =>
    case Admit(id, adm, now, healthy, ok) => AdmitConserves(g, id, adm, now, healthy, ok);
    case Bind(id, upstream, now, ok) => BindConserves(g, id, upstream, now, ok);
    case Begin(id, attempt, now, ok) =>
      var i := Glob.Trim(attempt);
      if id in g.book.reservations && i !in g.book.reservations[id].attempts {
        OpenStepConserves(g, id, i, now, ok);
      }
    case Record(id, settlement, usage, now, okOpen, ok) => RecordConserves(g, id, settlement, usage, now, okOpen, ok);
    case Release(id, now, ok) => DropConserves(g.book, id);
    case Beat(_, _, _) =>
  }
}
