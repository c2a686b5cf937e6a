/** Replay of the ledger refines the live manager, over every run. */
module GovernanceReplay {
  import opened Options
  import opened GovernanceBook
  import opened GovernancePolicy
  import opened JournalLog
  import opened Governance
  import opened GovernanceConservation

  predicate SameCounts(c: Counters, d: Counters) {
    c.admitted == d.admitted && c.settlements == d.settlements && c.known == d.known && c.unknown == d.unknown
  }

  ghost predicate Mirrors(p: Replica, g: Gov) {
    Agree(p.book, g.book) && p.estimates == g.estimates && SameCounts(p.counters, g.counters)
  }

  /** Replaying the ledger gives back the live accounting. */
  ghost predicate Refines(g: Gov) {
    Replay(g.ledger).Some? && Mirrors(Replay(g.ledger).value, g)
  }

  /** The ledger can be replayed, and what it gives is conserved. */
  ghost predicate Sound(log: seq<Item<Event>>) {
    Replay(log).Some? && Conserved(Replay(log).value.book)
  }

  /** One append keeps ledger and book together, or it was lost while the configuration did
      not insist on it: then the journal is down and the ledger as it was. */
  ghost predicate Kept(g: Gov, h: Gov) {
    Refines(h) || (!h.journalUp && !g.config.enforce && h.ledger == g.ledger)
  }

  lemma {:induction false} RefinesIsSound(g: Gov)
    requires Refines(g) && Conserved(g.book)
    ensures Sound(g.ledger)
  {
    AgreeConserves(Replay(g.ledger).value.book, g.book);
  }

  lemma {:induction false} ReplayAppend(log: seq<Item<Event>>, item: Item<Event>)
    requires Replay(log).Some?
    ensures Replay(log + [item]) == ReplayEvent(Replay(log).value, item.entity, item.payload)
  {
    assert (log + [item])[..|log|] == log;
  }

  /** The ledger grew by one item that leads the replica to the new live state. */
  lemma {:induction false} LoggedRefines(g: Gov, h: Gov, item: Item<Event>)
    requires Refines(g) && h.ledger == g.ledger + [item]
    requires ReplayEvent(Replay(g.ledger).value, item.entity, item.payload).Some?
    requires Mirrors(ReplayEvent(Replay(g.ledger).value, item.entity, item.payload).value, h)
    ensures Refines(h)
  {
    ReplayAppend(g.ledger, item);
  }

  lemma {:induction false} ReservedMirrors(p: Replica, g: Gov, id: string, adm: Admission, window: int,
                                           amount: Amount, keys: seq<Key>)
    requires Mirrors(p, g) && adm.principal != "" && window != ZERO_TIME
    ensures var q := ReplayEvent(p, id, Reserved(adm.principal, adm.tenant, adm.upstream, adm.model, FIRST_ATTEMPT,
                                                 window, amount, keys));
      && q.Some? && q.value.estimates == p.estimates
      && q.value.counters == p.counters.(admitted := p.counters.admitted + 1)
      && Agree(q.value.book,
               OpenAttempt(g.book, id, NewReservation(adm, keys), FIRST_ATTEMPT, NewAttempt(window, amount, keys)))
  {
    var r := NewReservation(adm, keys);
    OpenAttemptAgrees(p.book, g.book, id, r, r, FIRST_ATTEMPT, NewAttempt(window, amount, keys));
  }

  lemma {:induction false} AdmitRefines(g: Gov, rawId: string, raw: Admission, now: nat, healthy: bool, ok: bool)
    requires Refines(g)
    ensures Kept(g, AdmitStep(g, rawId, raw, now, healthy, ok).0)
  {
    var id, adm := Glob.Trim(rawId), Normalize(raw);
    var keys := BudgetKeys(g.config, adm);
    var amount := Amounts(g.config, g.estimates, adm.model, keys);
    var (h, outcome) := AdmitStep(g, rawId, raw, now, healthy, ok);
    if outcome == Done && Accepts(g, ok) {
      ReservedMirrors(Replay(g.ledger).value, g, id, adm, WindowOf(now), amount, keys);
      LoggedRefines(g, h, Item(now, id, Reserved(adm.principal, adm.tenant, adm.upstream, adm.model, FIRST_ATTEMPT,
                                                 WindowOf(now), amount, keys)));
    }
  }

  lemma {:induction false} RelabelSame(r: Reservation, q: Reservation, keys: seq<Key>)
    requires SameReservation(r, q)
    requires forall i :: i in q.attempts && Open(q.attempts[i]) ==> q.attempts[i].keys == keys
    ensures SameReservation(Relabel(r, keys), q)
  {
    forall i | i in r.attempts ensures SameAttempt(Relabel(r, keys).attempts[i], q.attempts[i]) {
      assert SameAttempt(r.attempts[i], q.attempts[i]);
    }
  }

  lemma {:induction false} RelabelAgrees(b: Book, c: Book, id: string, keys: seq<Key>)
    requires Agree(b, c) && id in c.reservations
    requires forall i :: i in c.reservations[id].attempts && Open(c.reservations[id].attempts[i]) ==>
               c.reservations[id].attempts[i].keys == keys
    ensures Agree(b.(reservations := b.reservations[id := Relabel(b.reservations[id], keys)]), c)
  {
    RelabelSame(b.reservations[id], c.reservations[id], keys);
  }

  lemma {:induction false} ReboundKeys(b: Book, id: string, upstream: string, keys: seq<Key>,
                                       amounts: map<string, Amount>)
    requires id in b.reservations
    ensures var r := Rebind(b, id, upstream, keys, amounts).reservations[id];
      forall i :: i in r.attempts && Open(r.attempts[i]) ==> r.attempts[i].keys == keys
  {}

  lemma {:induction false} BoundMirrors(p: Replica, g: Gov, id: string, principal: string, upstream: string,
                                        keys: seq<Key>, amounts: map<string, Amount>)
    requires Mirrors(p, g) && id in g.book.reservations && upstream != ""
    ensures ReplayEvent(p, id, Bound(principal, upstream, keys, amounts)).Some?
    ensures Mirrors(ReplayEvent(p, id, Bound(principal, upstream, keys, amounts)).value,
                    g.(book := Rebind(g.book, id, upstream, keys, amounts)))
  {
    RebindAgrees(p.book, g.book, id, upstream, keys, amounts);
    ReboundKeys(g.book, id, upstream, keys, amounts);
    RelabelAgrees(Rebind(p.book, id, upstream, keys, amounts), Rebind(g.book, id, upstream, keys, amounts), id, keys);
  }

  lemma {:induction false} BindRefines(g: Gov, id: string, raw: string, now: nat, ok: bool)
    requires Refines(g)
    ensures Kept(g, BindStep(g, id, raw, now, ok).0)
  {
    var upstream := Glob.Trim(raw);
    if id in g.book.reservations && upstream != "" && Accepts(g, ok) {
      var r := g.book.reservations[id];
      var keys := BudgetKeys(g.config, AdmissionOf(r).(upstream := upstream));
      var amounts := BindingAmounts(r, Amounts(g.config, g.estimates, r.model, keys));
      ReplayAppend(g.ledger, Item(now, id, Bound(r.principal, upstream, keys, amounts)));
      BoundMirrors(Replay(g.ledger).value, g, id, r.principal, upstream, keys, amounts);
    }
  }

  lemma {:induction false} OpenStepRefines(g: Gov, id: string, attemptId: string, now: nat, ok: bool)
    requires Refines(g) && id in g.book.reservations && attemptId !in g.book.reservations[id].attempts
    requires attemptId != ""
    ensures Kept(g, OpenStep(g, id, attemptId, now, ok).0)
  {
    var p := Replay(g.ledger).value;
    var r := g.book.reservations[id];
    var amount := Amounts(g.config, g.estimates, r.model, r.keys);
    if Accepts(g, ok) {
      var event := AttemptReserved(r.principal, attemptId, WindowOf(now), amount, r.keys);
      ReplayAppend(g.ledger, Item(now, id, event));
      OpenAttemptAgrees(p.book, g.book, id, p.book.reservations[id], r, attemptId,
                        NewAttempt(WindowOf(now), amount, r.keys));
    }
  }

  lemma {:induction false} UsageMirrors(p: Replica, g: Gov, id: string, i: string, event: Event)
    requires Mirrors(p, g) && id in g.book.reservations && i != ""
    requires i in g.book.reservations[id].attempts && i !in g.book.reservations[id].settlements
    requires Open(g.book.reservations[id].attempts[i])
    requires event.UsageRecorded? && event.settlementId == event.attemptId == i
    requires event.principal == g.book.reservations[id].principal
    ensures ReplayEvent(p, id, event).Some?
    ensures Agree(ReplayEvent(p, id, event).value.book, Settle(g.book, id, i, i, event.known, event.tokens, event.cost))
    ensures ReplayEvent(p, id, event).value.counters == Counted(p.counters, event.known)
    ensures ReplayEvent(p, id, event).value.estimates
         == if event.known then NextEstimate(p.estimates, event.model, event.tokens, event.cost) else p.estimates
  {
    assert SameReservation(p.book.reservations[id], g.book.reservations[id]);
    assert SameAttempt(p.book.reservations[id].attempts[i], g.book.reservations[id].attempts[i]);
    SettleAgrees(p.book, g.book, id, i, i, event.known, event.tokens, event.cost);
  }

  lemma {:induction false} SettleStepRefines(g: Gov, id: string, i: string, usage: Reported, now: nat, ok: bool)
    requires Refines(g) && ReportedInRange(usage) && id in g.book.reservations && i != ""
    requires i in g.book.reservations[id].attempts && i !in g.book.reservations[id].settlements
    requires Open(g.book.reservations[id].attempts[i])
    ensures Kept(g, SettleStep(g, id, i, usage, now, ok).0)
  {
    if Accepts(g, ok) {
      var r := g.book.reservations[id];
      var event := UsageRecorded(i, r.principal, r.model, i, r.attempts[i].window, usage.known,
                                 UsageTotal(usage), UsageCost(g.config, r.model, usage));
      UsageMirrors(Replay(g.ledger).value, g, id, i, event);
      LoggedRefines(g, SettleStep(g, id, i, usage, now, ok).0, Item(now, id, event));
    }
  }

  lemma {:induction false} ReleaseRefines(g: Gov, id: string, now: nat, ok: bool)
    requires Refines(g)
    ensures Kept(g, ReleaseStep(g, id, now, ok).0)
  {
    if Accepts(g, ok) {
      ReplayAppend(g.ledger, Item(now, id, Released));
      DropAgrees(Replay(g.ledger).value.book, g.book, id);
    }
  }

  lemma {:induction false} HeartbeatRefines(g: Gov, id: string, now: nat, ok: bool)
    requires Refines(g) && Conserved(g.book)
    ensures var h := HeartbeatStep(g, id, now, ok); Refines(h)
  {
    if id in g.book.reservations && Accepts(g, ok) {
      assert ReservationValid(g.book.reservations[id]);
      LoggedRefines(g, g.(ledger := g.ledger + [Item(now, id, Heartbeat(g.book.reservations[id].principal))]),
                    Item(now, id, Heartbeat(g.book.reservations[id].principal)));
    }
  }

  predicate Unlogged(g: Gov, h: Gov) { !h.journalUp && h.ledger == g.ledger }

  lemma {:induction false} AdmitDown(g: Gov, id: string, adm: Admission, now: nat, healthy: bool, ok: bool)
    requires !g.journalUp
    ensures Unlogged(g, AdmitStep(g, id, adm, now, healthy, ok).0)
  {}

  lemma {:induction false} BindDown(g: Gov, id: string, upstream: string, now: nat, ok: bool)
    requires !g.journalUp
    ensures Unlogged(g, BindStep(g, id, upstream, now, ok).0)
  {}

  lemma {:induction false} OpenStepDown(g: Gov, id: string, attemptId: string, now: nat, ok: bool)
    requires id in g.book.reservations && !g.journalUp
    ensures Unlogged(g, OpenStep(g, id, attemptId, now, ok).0)
  {}

  lemma {:induction false} SettleStepDown(g: Gov, id: string, i: string, usage: Reported, now: nat, ok: bool)
    requires !g.journalUp && ReportedInRange(usage) && id in g.book.reservations
    requires i in g.book.reservations[id].attempts
    ensures Unlogged(g, SettleStep(g, id, i, usage, now, ok).0)
  {}

  lemma {:induction false} RecordDown(g: Gov, id: string, raw: string, usage: Reported, now: nat, okOpen: bool,
                                      ok: bool)
    requires !g.journalUp && ReportedInRange(usage)
    ensures Unlogged(g, RecordStep(g, id, raw, usage, now, okOpen, ok).0)
  {
    var i := Glob.Trim(raw);
    if id in g.book.reservations {
      if i in g.book.reservations[id].attempts {
        SettleStepDown(g, id, i, usage, now, ok);
      } else {
        OpenStepDown(g, id, i, now, okOpen);
        var (h, outcome) := OpenStep(g, id, i, now, okOpen);
        if outcome == Done { SettleStepDown(h, id, i, usage, now, ok); }
      }
    }
  }

  /** A degraded journal stays as it is until the next restart. */
  lemma {:induction false} DownStays(g: Gov, op: Op)
    requires Possible(g, op) && !op.Restart? && !g.journalUp
    ensures Unlogged(g, Step(g, op))
  {
    match op
    case Admit(id, adm, now, healthy, ok) => AdmitDown(g, id, adm, now, healthy, ok);
    case Bind(id, upstream, now, ok) => BindDown(g, id, upstream, now, ok);
    case Begin(id, attempt, now, ok) =>
      if id in g.book.reservations { OpenStepDown(g, id, Glob.Trim(attempt), now, ok); }
    case Record(id, settlement, usage, now, okOpen, ok) => RecordDown(g, id, settlement, usage, now, okOpen, ok);
    case _ =>
  }

  // ---------------------------------------------------------------- one operation

  /** What holds in every reachable state: the book is conserved, the ledger can be
      replayed, and as long as the journal is up it tells the same story as the book. */
  ghost predicate Invariant(g: Gov) {
    Conserved(g.book) && Sound(g.ledger) && (g.journalUp || !g.running ==> Refines(g))
  }

  /** Operations that never lose an effect keep ledger and book together even while the
      journal is down: in enforce mode nothing happens that was not written first. */
  ghost predicate Faithful(g: Gov, h: Gov) {
    Sound(h.ledger) && (Refines(h) || (!h.journalUp && !g.config.enforce))
  }

  lemma {:induction false} KeptIsFaithful(g: Gov, h: Gov)
    requires Kept(g, h) && Sound(g.ledger) && Conserved(h.book)
    ensures Faithful(g, h)
  {
    if Refines(h) { RefinesIsSound(h); }
  }

  /** Settling an attempt that was not reserved takes two appends; either may be lost. */
  lemma {:induction false} SecondAppendFaithful(g: Gov, mid: Gov, id: string, i: string, usage: Reported, now: nat,
                                                ok: bool)
    requires Kept(g, mid) && mid.config == g.config && Sound(g.ledger) && Conserved(mid.book) && ReportedInRange(usage)
    requires id in mid.book.reservations && i != ""
    requires i in mid.book.reservations[id].attempts && i !in mid.book.reservations[id].settlements
    ensures Faithful(g, SettleStep(mid, id, i, usage, now, ok).0)
  {
    var h := SettleStep(mid, id, i, usage, now, ok).0;
    if Refines(mid) {
      RefinesIsSound(mid);
      UnsettledIsOpen(mid.book, id, i);
      SettleStepRefines(mid, id, i, usage, now, ok);
      SettleStepConserves(mid, id, i, usage, now, ok);
      KeptIsFaithful(mid, h);
    } else {
      SettleStepDown(mid, id, i, usage, now, ok);
    }
  }

  lemma {:induction false} RecordKnownFaithful(g: Gov, id: string, i: string, usage: Reported, now: nat, ok: bool)
    requires Refines(g) && Conserved(g.book) && Sound(g.ledger) && ReportedInRange(usage)
    requires id in g.book.reservations && i != ""
    requires i in g.book.reservations[id].attempts && i !in g.book.reservations[id].settlements
    ensures Faithful(g, SettleStep(g, id, i, usage, now, ok).0)
  {
    UnsettledIsOpen(g.book, id, i);
    SettleStepRefines(g, id, i, usage, now, ok);
    SettleStepConserves(g, id, i, usage, now, ok);
    KeptIsFaithful(g, SettleStep(g, id, i, usage, now, ok).0);
  }

  /** What the first of the two appends leaves behind. */
  ghost predicate Opened(g: Gov, mid: Gov, outcome: Outcome, id: string, i: string) {
    && Kept(g, mid) && mid.config == g.config && Conserved(mid.book)
    && (outcome == Done ==>
          && id in mid.book.reservations && i in mid.book.reservations[id].attempts
          && i !in mid.book.reservations[id].settlements)
  }

  lemma {:induction false} OpenStepOpened(g: Gov, id: string, i: string, now: nat, ok: bool)
    requires Refines(g) && Conserved(g.book) && id in g.book.reservations && i != ""
    requires i !in g.book.reservations[id].attempts
    ensures var (mid, outcome) := OpenStep(g, id, i, now, ok); Opened(g, mid, outcome, id, i)
  {
    OpenStepConserves(g, id, i, now, ok);
    OpenStepRefines(g, id, i, now, ok);
    if OpenStep(g, id, i, now, ok).1 == Done { OpenStepOpens(g, id, i, now, ok); }
  }

  lemma {:induction false} RecordNewFaithful(g: Gov, mid: Gov, outcome: Outcome, id: string, i: string,
                                             usage: Reported, now: nat, ok: bool)
    requires Opened(g, mid, outcome, id, i) && Sound(g.ledger) && ReportedInRange(usage) && i != ""
    ensures Faithful(g, if outcome == Done then SettleStep(mid, id, i, usage, now, ok).0 else mid)
  {
    if outcome == Done {
      SecondAppendFaithful(g, mid, id, i, usage, now, ok);
    } else {
      KeptIsFaithful(g, mid);
    }
  }

  lemma {:induction false} RecordFaithful(g: Gov, id: string, raw: string, usage: Reported, now: nat, okOpen: bool,
                                          ok: bool)
    requires Refines(g) && Conserved(g.book) && Sound(g.ledger) && ReportedInRange(usage)
    ensures Faithful(g, RecordStep(g, id, raw, usage, now, okOpen, ok).0)
  {
    var i := Glob.Trim(raw);
    if ValidId(i) && id in g.book.reservations && i !in g.book.reservations[id].settlements {
      if i in g.book.reservations[id].attempts {
        RecordKnownFaithful(g, id, i, usage, now, ok);
      } else {
        var (mid, outcome) := OpenStep(g, id, i, now, okOpen);
        OpenStepOpened(g, id, i, now, okOpen);
        RecordNewFaithful(g, mid, outcome, id, i, usage, now, ok);
      }
    }
  }

  /** One operation of the running process. */
  lemma {:induction false} StepFaithful(g: Gov, op: Op)
    requires Refines(g) && Conserved(g.book) && Sound(g.ledger) && Possible(g, op) && !op.Restart?
    ensures Faithful(g, Step(g, op))
  {
    StepConserves(g, op);
    match op
    case Apply(_) =>
    case Admit(id, adm, now, healthy, ok) => AdmitRefines(g, id, adm, now, healthy, ok); KeptIsFaithful(g, Step(g, op));
    case Bind(id, upstream, now, ok) => BindRefines(g, id, upstream, now, ok); KeptIsFaithful(g, Step(g, op));
    case Begin(id, attempt, now, ok) =>
      var i := Glob.Trim(attempt);
      if ValidId(i) && id in g.book.reservations && i !in g.book.reservations[id].attempts {
        OpenStepRefines(g, id, i, now, ok);
        KeptIsFaithful(g, Step(g, op));
      }
    case Record(id, settlement, usage, now, okOpen, ok) => RecordFaithful(g, id, settlement, usage, now, okOpen, ok);
    case Release(id, now, ok) => ReleaseRefines(g, id, now, ok); KeptIsFaithful(g, Step(g, op));
    case Beat(id, now, ok) => HeartbeatRefines(g, id, now, ok); RefinesIsSound(Step(g, op));
  }

  // ---------------------------------------------------------------- restart

  lemma {:induction false} ReplayReconciled(log: seq<Item<Event>>, order: seq<string>, now: int)
    requires Replay(log).Some?
    ensures Replay(log + ReconciledItems(order, now))
         == Some(Replay(log).value.(book := DropEach(Replay(log).value.book, order)))
    decreases |order|
  {
    if order == [] {
      assert log + ReconciledItems(order, now) == log;
    } else {
      var n := |order| - 1;
      ReplayReconciled(log, order[..n], now);
      var before := log + ReconciledItems(order[..n], now);
      assert log + ReconciledItems(order, now) == before + [Item(now, order[n], Reconciled)];
      ReplayAppend(before, Item(now, order[n], Reconciled));
    }
  }

  /** A restart puts ledger and book back together, whatever was lost before and however many of
      its own appends fail. */
  lemma {:induction false} RestartRefines(g: Gov, order: seq<string>, now: nat, good: nat)
    requires Sound(g.ledger)
    ensures Invariant(RestartStep(g, order, now, good))
    ensures g.config.enforce ==> Refines(RestartStep(g, order, now, good))
  {
    var p, written := Replay(g.ledger).value, Written(order, good);
    DropEachConserves(p.book, order);
    DropEachConserves(p.book, written);
    ReplayReconciled(g.ledger, written, now);
    AgreeItself(DropEach(p.book, written));
  }

  lemma {:induction false} AgreeItself(b: Book)
    ensures Agree(b, b)
  {}

  // ---------------------------------------------------------------- whole runs

  lemma {:induction false} OpenStepRunning(g: Gov, id: string, attemptId: string, now: nat, ok: bool)
    requires id in g.book.reservations
    ensures var (h, outcome) := OpenStep(g, id, attemptId, now, ok);
      && h.running == g.running
      && (outcome == Done ==> id in h.book.reservations && attemptId in h.book.reservations[id].attempts)
  {}

  lemma {:induction false} SettleStepRunning(g: Gov, id: string, i: string, usage: Reported, now: nat, ok: bool)
    requires ReportedInRange(usage) && id in g.book.reservations && i in g.book.reservations[id].attempts
    ensures SettleStep(g, id, i, usage, now, ok).0.running == g.running
  {}

  lemma {:induction false} RecordRunning(g: Gov, id: string, raw: string, usage: Reported, now: nat, okOpen: bool,
                                         ok: bool)
    requires ReportedInRange(usage)
    ensures RecordStep(g, id, raw, usage, now, okOpen, ok).0.running == g.running
  {
    var i := Glob.Trim(raw);
    if ValidId(i) && id in g.book.reservations && i !in g.book.reservations[id].settlements {
      if i in g.book.reservations[id].attempts {
        SettleStepRunning(g, id, i, usage, now, ok);
      } else {
        var (h, outcome) := OpenStep(g, id, i, now, okOpen);
        OpenStepRunning(g, id, i, now, okOpen);
        if outcome == Done { SettleStepRunning(h, id, i, usage, now, ok); }
      }
    }
  }

  /** Only a restart decides whether a process is running. */
  lemma {:induction false} StepRunning(g: Gov, op: Op)
    requires Possible(g, op) && !op.Restart?
    ensures Step(g, op).running == g.running
  {
    match op
    case Apply(_) =>
    case Admit(_, _, _, _, _) =>
    case Bind(_, _, _, _) =>
    case Begin(id, attempt, now, ok) =>
      if id in g.book.reservations { OpenStepRunning(g, id, Glob.Trim(attempt), now, ok); }
    case Record(id, settlement, usage, now, okOpen, ok) => RecordRunning(g, id, settlement, usage, now, okOpen, ok);
    case Release(_, _, _) =>
    case Beat(_, _, _) =>
  }

  lemma {:induction false} LiveInvariant(g: Gov, h: Gov)
    requires Conserved(h.book) && h.running
    requires Faithful(g, h) || (Unlogged(g, h) && Sound(g.ledger))
    ensures Invariant(h)
  {}

  lemma {:induction false} StepInvariant(g: Gov, op: Op)
    requires Invariant(g) && Possible(g, op)
    ensures Invariant(Step(g, op))
  {
    if op.Restart? {
      RestartRefines(g, op.order, op.now, op.good);
    } else if !op.Apply? {
      StepConserves(g, op);
      StepRunning(g, op);
      if g.journalUp {
        StepFaithful(g, op);
      } else {
        DownStays(g, op);
      }
      LiveInvariant(g, Step(g, op));
    }
  }

  lemma {:induction false} InitialInvariant(cfg: Config)
    ensures Invariant(Initial(cfg)) && Refines(Initial(cfg))
  {
    var g := Initial(cfg);
    forall s ensures SlotConserved(g.book, s) {}
    assert Replay(g.ledger) == Some(FRESH);
    AgreeItself(g.book);
  }

  /** The conservation law over every run: what is reserved on a key and window is what the
      open attempts hold there, each reservation's totals are those of its own open attempts,
      and the ledger can always be replayed, whatever appends failed. */
  lemma {:induction false} RunInvariant(cfg: Config, gs: seq<Gov>, ops: seq<Op>, n: nat)
    requires IsRun(cfg, gs, ops) && n <= |ops|
    ensures Invariant(gs[n])
  {
    if n == 0 {
      InitialInvariant(cfg);
    } else {
      RunInvariant(cfg, gs, ops, n - 1);
      StepInvariant(gs[n - 1], ops[n - 1]);
    }
  }

  lemma {:induction false} DropEachCounts(b: Book, order: seq<string>, s: Slot)
    ensures var u, v := At(DropEach(b, order).usage, s), At(b.usage, s);
      u.requests == v.requests && u.tokens == v.tokens && u.cost == v.cost && u.unknown == v.unknown
    decreases |order|
  {
    if order != [] {
      var n := |order| - 1;
      DropEachCounts(b, order[..n], s);
      var c := DropEach(b, order[..n]);
      if order[n] in c.reservations {
        UnreserveAllAt(c.usage, c.reservations[order[n]], s);
      }
    }
  }

  lemma {:induction false} EmptyBookHoldsNothing(b: Book, s: Slot)
    requires Conserved(b) && b.reservations == map[]
    ensures At(b.usage, s).reservedTokens == 0 && At(b.usage, s).reservedCost == 0
  {
    assert SlotConserved(b, s);
  }

  /** Replay refines live accounting.  After any run whose appends went through, a restart
      succeeds and shows, for every key and window, the same requests, tokens, cost and unknown
      count as the live manager, with nothing reserved and nothing open; estimates and
      settlement counters are the live ones.  The same holds of a restart that follows on one
      that could not finish. */
  lemma {:induction false} RestartEquivalence(cfg: Config, gs: seq<Gov>, ops: seq<Op>, order: seq<string>, now: nat,
                                              good: nat, s: Slot)
    requires IsRun(cfg, gs, ops) && (gs[|ops|].journalUp || !gs[|ops|].running)
    requires Enumerates(order, gs[|ops|].book.reservations.Keys) && good >= |order|
    ensures var live, next := gs[|ops|], RestartStep(gs[|ops|], order, now, good);
      && next.running && next.book.reservations == map[]
      && At(next.book.usage, s) == At(live.book.usage, s).(reservedTokens := 0, reservedCost := 0)
      && next.estimates == live.estimates && SameCounts(next.counters, live.counters)
  {
    RunInvariant(cfg, gs, ops, |ops|);
    RestartShows(gs[|ops|], order, now, good, s);
  }

  lemma {:induction false} RestartShows(live: Gov, order: seq<string>, now: nat, good: nat, s: Slot)
    requires Invariant(live) && Refines(live) && Enumerates(order, live.book.reservations.Keys) && good >= |order|
    ensures var next := RestartStep(live, order, now, good);
      && next.running && next.book.reservations == map[]
      && At(next.book.usage, s) == At(live.book.usage, s).(reservedTokens := 0, reservedCost := 0)
      && next.estimates == live.estimates && SameCounts(next.counters, live.counters)
  {
    var p := Replay(live.ledger).value;
    DropEachKeys(p.book, order);
    DropEachCounts(p.book, order, s);
    DropEachConserves(p.book, order);
    EmptyBookHoldsNothing(DropEach(p.book, order), s);
  }
}
