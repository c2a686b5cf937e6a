/** The governance manager: an object whose fields are the ledger and the accounting book,
    updated in place by saturating additions and clipped subtractions. */
module GovernanceManager {
  import opened Options
  import opened GovernanceBook
  import opened GovernancePolicy
  import opened JournalLog
  import opened Governance
  import opened GovernanceConservation
  import opened GovernanceLoops
  import opened GovernanceDecisions
  import opened GovernanceExact
  import opened GovernanceLoad
  import Glob

  class Manager {
    var config: Config
    var usage: map<Slot, Usage>
    var reservations: map<string, Reservation>
    var estimates: map<string, Estimate>
    var counters: Counters
    var ledger: seq<Item<Event>>
    var journalUp: bool

    function Model(): Gov reads this {
      Gov(config, Book(usage, reservations), estimates, counters, ledger, journalUp, true)
    }

    ghost predicate Valid() reads this { Conserved(Model().book) }

    constructor (config: Config)
      ensures Model() == Initial(config)
    {
      this.config := config;
      usage, reservations, estimates, counters, ledger, journalUp := map[], map[], map[], NO_COUNTS, [], true;
    }

    method AppendEvent(now: int, id: string, event: Event, ok: bool) returns (accepted: bool)
      modifies this`ledger, this`counters, this`journalUp
      ensures accepted == Accepts(old(Model()), ok)
      ensures Model() == Append(old(Model()), now, id, event, ok)
    {
      accepted := journalUp && ok;
      if accepted {
        ledger := ledger + [Item(now, id, event)];
      } else {
        counters := counters.(persistenceFailures := counters.persistenceFailures + 1);
        journalUp := false;
      }
    }

    /** The reservation is logged and entered in the book. */
    method Enter(id: string, adm: Admission, window: int, keys: seq<Key>, amount: Amount, now: nat,
                 ok: bool) returns (outcome: Outcome)
      modifies this
      ensures outcome == EnterStep(old(Model()), id, adm, window, keys, amount, now, ok).1
      ensures var next := EnterStep(old(Model()), id, adm, window, keys, amount, now, ok).0;
        NoDuplicates(keys) && Fits64(next.book) ==> Model() == next
    {
      var accepted := AppendEvent(now, id, Reserved(adm.principal, adm.tenant, adm.upstream, adm.model, FIRST_ATTEMPT,
                                                    window, amount, keys), ok);
      if !accepted && config.enforce { return LedgerUnavailable; }
      var attempt := NewAttempt(window, amount, keys);
      var reservation := Reservation(adm.principal, adm.tenant, adm.upstream, adm.model, amount.tokens, amount.cost,
                                     map[], keys, map[FIRST_ATTEMPT := attempt]);
      ghost var book, empty := Book(usage, reservations), NewReservation(adm, keys);
      if Fits64(OpenAttempt(book, id, empty, FIRST_ATTEMPT, attempt)) {
        OpenedFits(book, id, empty, FIRST_ATTEMPT, attempt);
      }
      var charged := ChargeKeys(usage, attempt);
      usage, reservations := charged, reservations[id := reservation];
      counters := counters.(admitted := counters.admitted + 1);
      outcome := Done;
    }

    /** Whether an admission may be entered, with the keys and amounts to enter. */
    method Decide(id: string, adm: Admission, now: nat, healthy: bool)
      returns (outcome: Outcome, keys: seq<Key>, amount: Amount)
      ensures keys == BudgetKeys(config, adm) && amount == Amounts(config, estimates, adm.model, keys)
      ensures outcome == AdmitVerdict(Model(), id, adm, WindowOf(now), keys, amount, healthy)
    {
      keys := CollectKeys(config, adm);
      amount := FindAmounts(config, estimates, adm.model, keys);
      if !ValidId(id) { return Invalid, keys, amount; }
      var tenants := FindTenantBudget(config);
      if config.enforce && tenants && adm.tenant == "" { return TenantMissing, keys, amount; }
      if id in reservations { return Duplicate, keys, amount; }
      if config.enforce && !(journalUp && healthy) { return LedgerUnavailable, keys, amount; }
      var verdict := EvaluateLimits(config, Book(usage, reservations), id, WindowOf(now), keys, amount);
      outcome := if verdict == Fits then Done else Refused(verdict);
    }

    method AdmitLocked(rawId: string, raw: Admission, now: nat, healthy: bool, ok: bool) returns (outcome: Outcome)
      modifies this
      ensures outcome == AdmitStep(old(Model()), rawId, raw, now, healthy, ok).1
      ensures var next := AdmitStep(old(Model()), rawId, raw, now, healthy, ok).0; Fits64(next.book) ==> Model() == next
    {
      var keys, amount;
      outcome, keys, amount := Decide(Glob.Trim(rawId), Normalize(raw), now, healthy);
      if outcome == Done {
        BudgetKeysShape(config, Normalize(raw));
        outcome := Enter(Glob.Trim(rawId), Normalize(raw), WindowOf(now), keys, amount, now, ok);
      }
    }

    /** Admission.  The outcome is always that of the ideal step; so is the new state, unless
        a sum of it exceeds int64. */
    method Admit(rawId: string, raw: Admission, now: nat, healthy: bool, ok: bool) returns (outcome: Outcome)
      modifies this
      ensures outcome == AdmitStep(old(Model()), rawId, raw, now, healthy, ok).1
      ensures var next := AdmitStep(old(Model()), rawId, raw, now, healthy, ok).0;
        old(Valid()) && Fits64(next.book) ==> Model() == next && Valid()
    {
      ghost var g := Model();
      if Conserved(g.book) { AdmitConserves(g, rawId, raw, now, healthy, ok); }
      outcome := AdmitLocked(rawId, raw, now, healthy, ok);
    }

    method EnterAttempt(id: string, r: Reservation, attemptId: string, window: int, amount: Amount, now: nat,
                        ok: bool) returns (outcome: Outcome)
      requires id in reservations && reservations[id] == r
      modifies this
      ensures outcome == EnterAttemptStep(old(Model()), id, r, attemptId, window, amount, now, ok).1
      ensures outcome == Done ==> id in reservations && attemptId in reservations[id].attempts
      ensures outcome == Done ==>
        id in reservations && reservations[id].settlements == old(reservations[id].settlements)
      ensures config == old(config) && journalUp == (old(journalUp) && (outcome.Refused? || ok))
      ensures var next := EnterAttemptStep(old(Model()), id, r, attemptId, window, amount, now, ok).0;
        NoDuplicates(r.keys) && Fits64(next.book) ==> Model() == next
    {
      var accepted := AppendEvent(now, id, AttemptReserved(r.principal, attemptId, window, amount, r.keys), ok);
      if !accepted && config.enforce { return LedgerUnavailable; }
      var attempt := NewAttempt(window, amount, r.keys);
      var book := GovernanceExact.EnterAttempt(Book(usage, reservations), id, r, attemptId, attempt);
      usage, reservations := book.usage, book.reservations;
      outcome := Done;
    }

    method OpenOne(id: string, attemptId: string, now: nat, ok: bool) returns (outcome: Outcome)
      requires id in reservations
      modifies this
      ensures outcome == OpenStep(old(Model()), id, attemptId, now, ok).1
      ensures outcome == Done ==> id in reservations && attemptId in reservations[id].attempts
      ensures outcome == Done ==>
        id in reservations && reservations[id].settlements == old(reservations[id].settlements)
      ensures config == old(config) && journalUp == (old(journalUp) && (outcome.Refused? || ok))
      ensures var next := OpenStep(old(Model()), id, attemptId, now, ok).0;
        old(Valid()) && Fits64(next.book) ==> Model() == next
    {
      var cfg, r, window := config, reservations[id], WindowOf(now);
      if Valid() { KeysDistinct(Book(usage, reservations), id); }
      var amount := FindAmounts(cfg, estimates, r.model, r.keys);
      var verdict := EvaluateLimits(cfg, Book(usage, reservations), id, window, r.keys, amount);
      if verdict != Fits { return Refused(verdict); }
      outcome := EnterAttempt(id, r, attemptId, window, amount, now, ok);
    }

    method BeginAttempt(id: string, raw: string, now: nat, ok: bool) returns (outcome: Outcome)
      modifies this
      ensures outcome == BeginStep(old(Model()), id, raw, now, ok).1
      ensures var next := BeginStep(old(Model()), id, raw, now, ok).0;
        old(Valid()) && Fits64(next.book) ==> Model() == next && Valid()
    {
      var attemptId := Glob.Trim(raw);
      ghost var g := Model();
      if !ValidId(attemptId) { return Invalid; }
      if id !in reservations { return Closed; }
      if attemptId in reservations[id].attempts {
        return if Open(reservations[id].attempts[attemptId]) then Done else Duplicate;
      }
      if Conserved(g.book) { OpenStepConserves(g, id, attemptId, now, ok); }
      outcome := OpenOne(id, attemptId, now, ok);
    }

    method Move(id: string, r: Reservation, upstream: string, keys: seq<Key>, amounts: map<string, Amount>, now: nat,
                ok: bool) returns (outcome: Outcome)
      requires id in reservations && reservations[id] == r
      modifies this
      ensures outcome == RebindStep(old(Model()), id, r, upstream, keys, amounts, now, ok).1
      ensures var next := RebindStep(old(Model()), id, r, upstream, keys, amounts, now, ok).0;
        Movable(old(usage), r, ReboundReservation(r, upstream, keys, amounts)) ==> Model() == next
    {
      var accepted := AppendEvent(now, id, Bound(r.principal, upstream, keys, amounts), ok);
      if !accepted && config.enforce { return LedgerUnavailable; }
      var u, moved := MoveAttempts(usage, r, upstream, keys, amounts);
      usage, reservations := u, reservations[id := moved];
      outcome := Done;
    }

    method BindLocked(id: string, raw: string, now: nat, ok: bool) returns (outcome: Outcome)
      modifies this
      ensures outcome == BindStep(old(Model()), id, raw, now, ok).1
      ensures old(Valid()) && BindFits(old(Model()), id, Glob.Trim(raw)) ==>
        Model() == BindStep(old(Model()), id, raw, now, ok).0
    {
      var cfg, upstream := config, Glob.Trim(raw);
      if !ValidId(upstream) { return Invalid; }
      if id !in reservations { return Closed; }
      var r := reservations[id];
      if r.upstream == upstream { return Done; }
      var adm := Admission(r.principal, r.tenant, r.model, upstream);
      var keys := CollectKeys(cfg, adm);
      var amount := FindAmounts(cfg, estimates, r.model, keys);
      var amounts := ListAmounts(r, amount);
      var verdict := EvaluateBinding(cfg, Book(usage, reservations), id, WindowOf(now), keys, amounts, amount);
      if verdict != Fits { return Refused(verdict); }
      BudgetKeysShape(cfg, adm);
      if Valid() && BindFits(Model(), id, upstream) {
        ConservedMoves(Book(usage, reservations), id, upstream, keys, amounts);
      }
      outcome := Move(id, r, upstream, keys, amounts, now, ok);
    }

    method BindUpstream(id: string, raw: string, now: nat, ok: bool) returns (outcome: Outcome)
      modifies this
      ensures outcome == BindStep(old(Model()), id, raw, now, ok).1
      ensures old(Valid()) && BindFits(old(Model()), id, Glob.Trim(raw))
        ==> Model() == BindStep(old(Model()), id, raw, now, ok).0 && Valid()
    {
      ghost var g := Model();
      if Conserved(g.book) { BindConserves(g, id, raw, now, ok); }
      outcome := BindLocked(id, raw, now, ok);
    }

    /** An attempt on a given upstream: bound first, under a lock of its own, and reserved only if
        that succeeds.  No upstream means no binding. */
    method BeginAttemptWithUpstream(id: string, raw: string, upstream: string, now: nat, later: nat, okBind: bool,
                                    ok: bool) returns (outcome: Outcome)
      modifies this
      ensures var (next, expected) := BeginOnStep(old(Model()), id, raw, upstream, now, later, okBind, ok);
        old(Valid()) && BindFits(old(Model()), id, Glob.Trim(upstream)) && Fits64(next.book)
        ==> Model() == next && outcome == expected && Valid()
      ensures !ValidId(Glob.Trim(raw)) ==> Model() == old(Model()) && outcome == Invalid
    {
      if !ValidId(Glob.Trim(raw)) { return Invalid; }
      if Glob.Trim(upstream) != "" {
        outcome := BindUpstream(id, upstream, now, okBind);
        if outcome != Done { return; }
      }
      outcome := BeginAttempt(id, raw, later, ok);
    }

    method SettleBook(id: string, i: string, known: bool, tokens: nat, cost: nat)
      requires id in reservations && i in reservations[id].attempts && i !in reservations[id].settlements
      modifies this`usage, this`reservations
      ensures var next := Settle(old(Model()).book, id, i, i, known, tokens, cost);
        old(Valid()) && Fits64(next) ==> Model().book == next
    {
      var consumed, settled := SettleAttempt(Book(usage, reservations), id, i, i, known, tokens, cost);
      usage, reservations := consumed, reservations[id := settled];
    }

    method SettleOne(id: string, i: string, reported: Reported, now: nat, ok: bool) returns (outcome: Outcome)
      requires ReportedInRange(reported) && id in reservations
      requires i in reservations[id].attempts && i !in reservations[id].settlements
      modifies this
      ensures outcome == SettleStep(old(Model()), id, i, reported, now, ok).1
      ensures outcome == if config.enforce && !(old(journalUp) && ok) then LedgerUnavailable else Done
      ensures var next := SettleStep(old(Model()), id, i, reported, now, ok).0;
        old(Valid()) && Fits64(next.book) ==> Model() == next
    {
      var r := reservations[id];
      var a := r.attempts[i];
      var tokens, cost := UsageTotal(reported), UsageCost(config, r.model, reported);
      var accepted := AppendEvent(now, id, UsageRecorded(i, r.principal, r.model, i, a.window, reported.known, tokens,
                                                         cost), ok);
      if !accepted && config.enforce { return LedgerUnavailable; }
      SettleBook(id, i, reported.known, tokens, cost);
      if reported.known { estimates := NextEstimate(estimates, r.model, tokens, cost); }
      counters := Counted(counters, reported.known);
      outcome := Done;
    }

    /** Settlement of an attempt.  One that was never begun is reserved first.  The cost is that
        of the first report of the settlement. */
    method Record(id: string, raw: string, reported: Reported, now: nat, okOpen: bool,
                  ok: bool) returns (outcome: Outcome, cost: int)
      requires ReportedInRange(reported)
      modifies this
      ensures outcome == RecordStep(old(Model()), id, raw, reported, now, okOpen, ok).1
      ensures outcome == Done ==> id in old(reservations) && cost == CostOf(old(Model()), id, raw, reported)
      ensures old(Valid()) && RecordFits(old(Model()), id, raw, reported, now, okOpen, ok)
        ==> Model() == RecordStep(old(Model()), id, raw, reported, now, okOpen, ok).0 && Valid()
    {
      ghost var g := Model();
      RecordOutcome(g, id, raw, reported, now, okOpen, ok);
      if Conserved(g.book) { RecordConserves(g, id, raw, reported, now, okOpen, ok); }
      cost := if id in reservations then CostOf(Model(), id, raw, reported) else 0;
      outcome := RecordLocked(id, raw, reported, now, okOpen, ok);
      if outcome != Done { cost := 0; }
    }

    method RecordLocked(id: string, raw: string, reported: Reported, now: nat, okOpen: bool,
                        ok: bool) returns (outcome: Outcome)
      requires ReportedInRange(reported)
      modifies this
      ensures outcome == RecordVerdict(old(Model()), id, raw, now, okOpen, ok)
      ensures outcome == Done ==> id in old(reservations)
      ensures old(Valid()) && RecordFits(old(Model()), id, raw, reported, now, okOpen, ok)
        ==> Model() == RecordStep(old(Model()), id, raw, reported, now, okOpen, ok).0
    {
      var i := Glob.Trim(raw);
      ghost var g := Model();
      if !ValidId(i) { return Invalid; }
      if id !in reservations { return Closed; }
      if i in reservations[id].settlements { return Done; }
      if i !in reservations[id].attempts {
        if Conserved(g.book) { OpenStepConserves(g, id, i, now, okOpen); }
        outcome := OpenOne(id, i, now, okOpen);
        if outcome != Done { return; }
      }
      outcome := SettleOne(id, i, reported, now, ok);
    }

    /** Writes a heartbeat for every reservation with an open attempt; in enforce mode one
        that cannot be written stops it. */
    method BeatAll(now: nat, good: nat) returns (done: bool, ghost order: seq<string>)
      modifies this`ledger, this`counters, this`journalUp
      ensures Enumerates(order, set id | id in order) && forall id :: id in order ==> id in old(reservations)
      ensures done ==> Enumerates(order, old(reservations).Keys)
      ensures Model() == BeatEach(old(Model()), order, now, good)
      ensures done <==> Compacts(old(Model()), Model())
    {
      order := [];
      var todo, n := reservations.Keys, 0;
      ghost var g := Model();
      while todo != {}
        invariant BeatSoFar(g, Model(), order, todo, now, good) && n == |order|
        decreases |todo|
      {
        var id :| id in todo;
        BeatNext(g, Model(), order, todo, id, now, good);
        var beating := Beat(id, now, n < good);
        order, todo, n := order + [id], todo - {id}, n + 1;
        if !beating {
          VisitedOnce(order, g.book.reservations.Keys - todo);
          return false, order;
        }
      }
      BeatenAll(g, Model(), order, todo, now, good);
      done := true;
    }

    /** Heartbeats, and then the ledger without the entities that have no entry since the
        cutoff. */
    method Compact(now: nat, cutoff: int, good: nat) returns (done: bool, ghost order: seq<string>)
      modifies this`ledger, this`counters, this`journalUp
      ensures Enumerates(order, set id | id in order) && forall id :: id in order ==> id in old(reservations)
      ensures done ==> Enumerates(order, old(reservations).Keys)
      ensures done <==> Compacts(old(Model()), BeatEach(old(Model()), order, now, good))
      ensures Model() == var beaten := BeatEach(old(Model()), order, now, good);
        if done then beaten.(ledger := Compacted(beaten.ledger, cutoff, {})) else beaten
    {
      done, order := BeatAll(now, good);
      if done { ledger := Compacted(ledger, cutoff, {}); }
    }

    method Beat(id: string, now: nat, ok: bool) returns (beating: bool)
      requires id in reservations
      modifies this`ledger, this`counters, this`journalUp
      ensures Model() == HeartbeatStep(old(Model()), id, now, ok)
      ensures beating <==> !config.enforce || !HasOpen(reservations[id]) || (old(journalUp) && ok)
    {
      beating := true;
      var open := AnyOpen(reservations[id]);
      if open {
        var accepted := AppendEvent(now, id, Heartbeat(reservations[id].principal), ok);
        if !accepted && config.enforce { beating := false; }
      }
    }

    method ReconcileOne(c: Book, id: string, now: nat, ok: bool, ghost good: nat, ghost g: Gov, ghost b: Book,
                        ghost order: seq<string>)
      returns (done: bool, next: Book)
      requires Tidied(g, Model(), order, now, good) && g.journalUp && (ok <==> |order| < good)
      modifies this`ledger, this`counters, this`journalUp
      ensures done <==> ok || !config.enforce
      ensures done ==> Tidied(g, Model(), order + [id], now, good)
      ensures !done ==> ledger == old(ledger)
      ensures Conserved(b) && c == DropEach(b, order) ==> next == DropEach(b, order + [id])
    {
      next := CloseReservation(c, id);
      DropEachNext(b, order, id);
      WrittenNext(order, id, now, good);
      var accepted := AppendEvent(now, id, Event.Reconciled, ok);
      if !accepted && config.enforce { return false, next; }
      counters := counters.(reconciled := counters.reconciled + 1);
      done := true;
    }

    /** Closes the reservations a dead process left open, in any order; good is how many of the
        appends succeed before one fails. */
    method ReconcileAll(b: Book, now: nat, good: nat) returns (done: bool, c: Book, ghost order: seq<string>)
      requires journalUp
      modifies this`ledger, this`counters, this`journalUp
      ensures done ==> Tidied(old(Model()), Model(), order, now, good) && (|order| <= good || !config.enforce)
      ensures done && Conserved(b) ==> c == DropEach(b, order)
      ensures done ==> Enumerates(order, b.reservations.Keys)
      ensures !done ==> good < |order| && config.enforce && ledger == old(ledger) + ReconciledItems(order[..good], now)
    {
      order, c := [], b;
      var todo, left := b.reservations.Keys, good;
      ghost var g := Model();
      while todo != {}
        invariant todo <= b.reservations.Keys && Enumerates(order, b.reservations.Keys - todo)
        invariant left == (if |order| < good then good - |order| else 0) && (|order| <= good || !config.enforce)
        invariant Conserved(b) ==> c == DropEach(b, order)
        invariant Tidied(g, Model(), order, now, good)
        decreases |todo|
      {
        var id :| id in todo;
        EnumeratesNext(order, b.reservations.Keys, todo, id);
        var fine;
        fine, c := ReconcileOne(c, id, now, left > 0, good, g, b, order);
        if !fine {
          assert order == (order + [id])[..good];
          return false, c, order + [id];
        }
        order, todo := order + [id], todo - {id};
        if left > 0 { left := left - 1; }
      }
      assert b.reservations.Keys - todo == b.reservations.Keys;
      done := true;
    }

    /** A new process: the ledger is replayed into a fresh manager, and what the old process
        left open is closed. */
    method Load(now: nat, good: nat) returns (started: bool, ghost order: seq<string>)
      requires Model() == Initial(config).(ledger := ledger)
      modifies this
      ensures Loadable(old(ledger)) ==>
        started == RestartStep(old(Model()), order, now, good).running && ledger == RestartStep(old(Model()), order,
                                                                                                now, good).ledger
      ensures Loadable(old(ledger)) && started ==>
        Model() == RestartStep(old(Model()), order, now, good)
        && Enumerates(order, Replay(old(ledger)).value.book.reservations.Keys)
    {
      order := [];
      ghost var g := Model();
      var rebuilt := ReplayLedger(ledger);
      if rebuilt.None? { return false, order; }
      var p := rebuilt.value;
      estimates, counters := p.estimates, p.counters;
      ghost var mid := Model();
      var b;
      started, b, order := ReconcileAll(p.book, now, good);
      if Loadable(g.ledger) {
        if started { LoadedIsRestart(g, p, mid, Model(), order, now, good); }
      }
      usage := b.usage;
    }

    method Release(id: string, now: nat, ok: bool) returns (outcome: Outcome)
      modifies this
      ensures outcome == ReleaseStep(old(Model()), id, now, ok).1
      ensures old(Valid()) ==> Model() == ReleaseStep(old(Model()), id, now, ok).0 && Valid()
    {
      ghost var g := Model();
      if Conserved(g.book) { DropConserves(g.book, id); }
      if id !in reservations { return Done; }
      var r := reservations[id];
      if Conserved(g.book) { ReleaseReady(g.book, id); }
      var accepted := AppendEvent(now, id, Released, ok);
      if !accepted && config.enforce { return LedgerUnavailable; }
      var freed := FreeAttempts(usage, r);
      usage, reservations := freed, reservations - {id};
      outcome := Done;
    }
  }

  /** Some attempt of the reservation is still open. */
  method AnyOpen(r: Reservation) returns (open: bool)
    ensures open <==> HasOpen(r)
  {
    var todo := r.attempts.Keys;
    while todo != {}
      invariant todo <= r.attempts.Keys && forall i :: i in r.attempts && i !in todo ==> !Open(r.attempts[i])
      decreases |todo|
    {
      var i :| i in todo;
      if Open(r.attempts[i]) { return true; }
      todo := todo - {i};
    }
    open := false;
  }

  lemma {:induction false} BeatEachNext(g: Gov, order: seq<string>, id: string, now: nat, good: nat)
    ensures BeatEach(g, order + [id], now, good)
         == HeartbeatStep(BeatEach(g, order, now, good), id, now, |order| < good)
  {
    assert (order + [id])[..|order|] == order;
  }

  /** What the heartbeats have done after the reservations visited so far. */
  ghost predicate BeatSoFar(g: Gov, h: Gov, order: seq<string>, todo: set<string>, now: nat, good: nat) {
    && todo <= g.book.reservations.Keys && Enumerates(order, g.book.reservations.Keys - todo)
    && h == BeatEach(g, order, now, good) && h.book == g.book && h.config == g.config
    && (g.config.enforce ==> h.journalUp || forall id :: id in order ==> !HasOpen(g.book.reservations[id]))
  }

  lemma {:induction false} BeatNext(g: Gov, h: Gov, order: seq<string>, todo: set<string>, id: string, now: nat,
                                    good: nat)
    requires BeatSoFar(g, h, order, todo, now, good) && id in todo
    ensures var k := HeartbeatStep(h, id, now, |order| < good);
      var beating := !g.config.enforce || !HasOpen(g.book.reservations[id]) || (h.journalUp && |order| < good);
      && k == BeatEach(g, order + [id], now, good)
      && Enumerates(order + [id], g.book.reservations.Keys - (todo - {id}))
      && (beating ==> BeatSoFar(g, k, order + [id], todo - {id}, now, good))
      && (!beating ==> !Compacts(g, k))
  {
    BeatEachNext(g, order, id, now, good);
    EnumeratesNext(order, g.book.reservations.Keys, todo, id);
  }

  lemma {:induction false} VisitedOnce(order: seq<string>, ids: set<string>)
    requires Enumerates(order, ids)
    ensures Enumerates(order, set id | id in order) && forall id :: id in order ==> id in ids
  {}

  lemma {:induction false} BeatenAll(g: Gov, h: Gov, order: seq<string>, todo: set<string>, now: nat, good: nat)
    requires BeatSoFar(g, h, order, todo, now, good) && todo == {}
    ensures Enumerates(order, g.book.reservations.Keys) && Enumerates(order, set id | id in order) && Compacts(g, h)
  {
    assert g.book.reservations.Keys - todo == g.book.reservations.Keys;
    VisitedOnce(order, g.book.reservations.Keys);
  }

  lemma {:induction false} EnumeratesNext(order: seq<string>, ids: set<string>, todo: set<string>, id: string)
    requires Enumerates(order, ids - todo) && id in todo && todo <= ids
    ensures Enumerates(order + [id], ids - (todo - {id}))
  {
    assert id !in order;
  }

  /** The ledger, counters and journal once the given reservations have been reconciled. */
  ghost predicate Tidied(g: Gov, h: Gov, order: seq<string>, now: int, good: nat) {
    h == g.(ledger := g.ledger + ReconciledItems(Written(order, good), now),
            counters := g.counters.(reconciled := g.counters.reconciled + |order|,
                                    persistenceFailures := g.counters.persistenceFailures + |order| - |Written(order,
                                                                                                               good)|),
            journalUp := |order| <= good)
  }

  lemma {:induction false} WrittenNext(order: seq<string>, id: string, now: int, good: nat)
    ensures |order| < good ==>
      ReconciledItems(Written(order + [id], good), now)
        == ReconciledItems(Written(order, good), now) + [Item(now, id, Event.Reconciled)]
    ensures |order| >= good ==> Written(order + [id], good) == Written(order, good)
    ensures |order| < good ==> |Written(order + [id], good)| == |Written(order, good)| + 1
  {
  }

  lemma {:induction false} DropEachNext(b: Book, order: seq<string>, id: string)
    ensures DropEach(b, order + [id]) == Drop(DropEach(b, order), id)
    ensures Conserved(b) ==> Conserved(DropEach(b, order))
  {
    assert (order + [id])[..|order|] == order;
    if Conserved(b) { DropEachConserves(b, order); }
  }

  /** The ledger is replayed exactly and leaves a conserved book, if any. */
  ghost predicate Loadable(log: seq<Item<Event>>) {
    LedgerFits(log) && (Replay(log).Some? ==> Conserved(Replay(log).value.book))
  }

  lemma {:induction false} LoadedIsRestart(g: Gov, p: Replica, mid: Gov, h: Gov, order: seq<string>, now: nat,
                                           good: nat)
    requires g == Initial(g.config).(ledger := g.ledger) && Replay(g.ledger) == Some(p)
    requires (|order| <= good || !g.config.enforce)
    requires mid == g.(estimates := p.estimates, counters := p.counters) && Tidied(mid, h, order, now, good)
    requires Enumerates(order, p.book.reservations.Keys)
    ensures RestartStep(g, order, now, good) == h.(book := Book(DropEach(p.book, order).usage, map[]))
  {
    ReplayWritesNothing(g.ledger);
    DropEachKeys(p.book, order);
    assert DropEach(p.book, order).reservations == map[];
  }

  /** How a settlement ends, whatever was used: that of the reservation it needs first, and then
      whether it can be written. */
  ghost function RecordVerdict(g: Gov, id: string, raw: string, now: nat, okOpen: bool, ok: bool): Outcome {
    var i := Glob.Trim(raw);
    if !ValidId(i) then Invalid
    else if id !in g.book.reservations then Closed
    else if i in g.book.reservations[id].settlements then Done
    else if i in g.book.reservations[id].attempts then
      (if g.config.enforce && !Accepts(g, ok) then LedgerUnavailable else Done)
    else
      var outcome := OpenStep(g, id, i, now, okOpen).1;
      if outcome != Done then outcome
      else if g.config.enforce && !(Accepts(g, okOpen) && ok) then LedgerUnavailable else Done
  }

  lemma {:induction false} SettleVerdict(g: Gov, id: string, i: string, usage: Reported, now: nat, ok: bool)
    requires ReportedInRange(usage) && id in g.book.reservations && i in g.book.reservations[id].attempts
    ensures SettleStep(g, id, i, usage, now, ok).1
         == if g.config.enforce && !Accepts(g, ok) then LedgerUnavailable else Done
  {}

  lemma {:induction false} OpenVerdict(g: Gov, id: string, i: string, now: nat, ok: bool)
    requires id in g.book.reservations
    ensures var (h, outcome) := OpenStep(g, id, i, now, ok);
      outcome == Done ==> h.config == g.config && h.journalUp == Accepts(g, ok)
                          && id in h.book.reservations && i in h.book.reservations[id].attempts
  {}

  lemma {:induction false} RecordOutcome(g: Gov, id: string, raw: string, usage: Reported, now: nat, okOpen: bool,
                                         ok: bool)
    requires ReportedInRange(usage)
    ensures RecordStep(g, id, raw, usage, now, okOpen, ok).1 == RecordVerdict(g, id, raw, now, okOpen, ok)
  {
    var i := Glob.Trim(raw);
    if ValidId(i) && id in g.book.reservations && i !in g.book.reservations[id].settlements {
      if i in g.book.reservations[id].attempts {
        SettleVerdict(g, id, i, usage, now, ok);
      } else {
        var (h, outcome) := OpenStep(g, id, i, now, okOpen);
        OpenVerdict(g, id, i, now, okOpen);
        if outcome == Done { SettleVerdict(h, id, i, usage, now, ok); }
      }
    }
  }

  /** The sums of a settlement, and of the reservation it may need first, are int64. */
  ghost predicate RecordFits(g: Gov, id: string, raw: string, reported: Reported, now: nat, okOpen: bool, ok: bool)
    requires ReportedInRange(reported)
  {
    var i := Glob.Trim(raw);
    && Fits64(RecordStep(g, id, raw, reported, now, okOpen, ok).0.book)
    && (id in g.book.reservations && i !in g.book.reservations[id].attempts
        ==> Fits64(OpenStep(g, id, i, now, okOpen).0.book))
  }

  /** What another attempt does once it has been allowed. */
  ghost function EnterAttemptStep(g: Gov, id: string, r: Reservation, attemptId: string, window: int, amount: Amount,
                                  now: nat, ok: bool): (Gov, Outcome) {
    var h := Append(g, now, id, AttemptReserved(r.principal, attemptId, window, amount, r.keys), ok);
    if !Accepts(g, ok) && g.config.enforce then (h, LedgerUnavailable)
    else (h.(book := OpenAttempt(g.book, id, r, attemptId, NewAttempt(window, amount, r.keys))), Done)
  }

  /** What a binding does once it has been allowed. */
  ghost function RebindStep(g: Gov, id: string, r: Reservation, upstream: string, keys: seq<Key>,
                            amounts: map<string, Amount>, now: nat, ok: bool): (Gov, Outcome)
    requires id in g.book.reservations
  {
    var h := Append(g, now, id, Bound(r.principal, upstream, keys, amounts), ok);
    if !Accepts(g, ok) && g.config.enforce then (h, LedgerUnavailable)
    else (h.(book := Rebind(g.book, id, upstream, keys, amounts)), Done)
  }

  /** A binding, unless no upstream is named, and then an attempt, unless the binding failed. */
  ghost function BeginOnStep(g: Gov, id: string, raw: string, upstream: string, now: nat, later: nat, okBind: bool,
                             ok: bool): (Gov, Outcome) {
    if !ValidId(Glob.Trim(raw)) then (g, Invalid)
    else if Glob.Trim(upstream) == "" then BeginStep(g, id, raw, later, ok)
    else
      var (h, bound) := BindStep(g, id, upstream, now, okBind);
      if bound != Done then (h, bound) else BeginStep(h, id, raw, later, ok)
  }

  /** The partial sums of a binding are int64. */
  ghost predicate BindFits(g: Gov, id: string, upstream: string) {
    id in g.book.reservations ==>
      var r := g.book.reservations[id];
      var keys := BudgetKeys(g.config, AdmissionOf(r).(upstream := upstream));
      var amounts := BindingAmounts(r, Amounts(g.config, g.estimates, r.model, keys));
      RoomToMove(g.book.usage, r, ReboundReservation(r, upstream, keys, amounts))
  }
}
