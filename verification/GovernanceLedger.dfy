/** Ledgers written by the manager are exactly replayed by its own loop, within int64. */
module GovernanceLedger {
  import opened GovernanceBook
  import opened GovernancePolicy
  import opened JournalLog
  import opened Governance
  import opened GovernanceConservation
  import opened GovernanceReplay
  import opened GovernanceLoops
  import opened GovernanceExact
  import opened GovernanceLoad
  import opened GovernanceProper
  import Compaction = GovernanceCompaction

  /** Every entry is regular and not dated before the window it charges, and every part of the
      ledger up to some point can be replayed to a conserved book. */
  ghost predicate Steadfast(log: seq<Item<Event>>) {
    && Lawful(log)
    && (forall n :: 0 <= n <= |log| ==> Sound(log[..n]))
  }

  predicate Lawful(log: seq<Item<Event>>) {
    forall i :: 0 <= i < |log| ==> Regular(log[i].payload) && Compaction.Dated(log[i])
  }

  lemma {:induction false} LawfulMore(log: seq<Item<Event>>, more: seq<Item<Event>>)
    requires Lawful(log) && more != [] && more[..|more| - 1] == log
    requires Regular(more[|more| - 1].payload) && Compaction.Dated(more[|more| - 1])
    ensures Lawful(more)
  {
    assert more == log + [more[|more| - 1]];
  }

  /** An entry that belongs into the ledger of a manager with this book. */
  predicate Fitting(b: Book, item: Item<Event>) {
    Regular(item.payload) && Compaction.Dated(item) && Proper(b, item.entity, item.payload)
  }

  /** The ledger is as it was, or longer by one fitting entry. */
  ghost predicate OneMore(b: Book, log: seq<Item<Event>>, more: seq<Item<Event>>) {
    more == log || (more != [] && more[..|more| - 1] == log && Fitting(b, more[|more| - 1]))
  }

  lemma {:induction false} SteadfastMore(b: Book, log: seq<Item<Event>>, more: seq<Item<Event>>)
    requires Steadfast(log) && OneMore(b, log, more) && Sound(more)
    ensures Steadfast(more)
  {
    if more != log {
      forall n | 0 <= n <= |more| ensures Sound(more[..n]) { PrefixSound(log, more, n); }
      LawfulMore(log, more);
    }
  }

  lemma {:induction false} PrefixSound(log: seq<Item<Event>>, more: seq<Item<Event>>, n: nat)
    requires more != [] && more[..|more| - 1] == log && Sound(more) && n <= |more| && (n < |more| ==> Sound(log[..n]))
    ensures Sound(more[..n])
  {
    assert more[..n] == if n == |more| then more else log[..n];
  }

  lemma {:induction false} AppendMore(g: Gov, now: int, id: string, event: Event, ok: bool)
    requires Fitting(g.book, Item(now, id, event))
    ensures OneMore(g.book, g.ledger, Append(g, now, id, event, ok).ledger)
  {
    assert (g.ledger + [Item(now, id, event)])[..|g.ledger|] == g.ledger;
  }

  lemma {:induction false} AdmitMore(g: Gov, rawId: string, raw: Admission, now: nat, healthy: bool, ok: bool)
    ensures OneMore(g.book, g.ledger, AdmitStep(g, rawId, raw, now, healthy, ok).0.ledger)
  {
    var id, adm := Glob.Trim(rawId), Normalize(raw);
    var keys := BudgetKeys(g.config, adm);
    BudgetKeysShape(g.config, adm);
    if id !in g.book.reservations {
      AppendMore(g, now, id, Reserved(adm.principal, adm.tenant, adm.upstream, adm.model, FIRST_ATTEMPT, WindowOf(now),
                                      Amounts(g.config, g.estimates, adm.model, keys), keys), ok);
    }
  }

  lemma {:induction false} BindMore(g: Gov, id: string, raw: string, now: nat, ok: bool)
    ensures OneMore(g.book, g.ledger, BindStep(g, id, raw, now, ok).0.ledger)
  {
    if id in g.book.reservations {
      var upstream, r := Glob.Trim(raw), g.book.reservations[id];
      BindingFits(g, id, raw, now);
      AppendMore(g, now, id, Bound(r.principal, upstream, BindingKeys(g, id, raw),
                                   BindingAmounts(r, BindingAmount(g, id, raw))), ok);
    }
  }

  lemma {:induction false} BindingFits(g: Gov, id: string, raw: string, now: nat)
    requires id in g.book.reservations
    ensures var r := g.book.reservations[id];
      Fitting(g.book, Item(now, id, Bound(r.principal, Glob.Trim(raw), BindingKeys(g, id, raw),
                                          BindingAmounts(r, BindingAmount(g, id, raw)))))
  {
    BudgetKeysShape(g.config, AdmissionOf(g.book.reservations[id]).(upstream := Glob.Trim(raw)));
  }

  lemma {:induction false} OpenMore(g: Gov, id: string, attemptId: string, now: nat, ok: bool)
    requires Conserved(g.book) && id in g.book.reservations
    ensures OneMore(g.book, g.ledger, OpenStep(g, id, attemptId, now, ok).0.ledger)
  {
    var r := g.book.reservations[id];
    assert ReservationValid(r);
    AppendMore(g, now, id, AttemptReserved(r.principal, attemptId, WindowOf(now),
                                           Amounts(g.config, g.estimates, r.model, r.keys), r.keys), ok);
  }

  lemma {:induction false} BeginMore(g: Gov, id: string, raw: string, now: nat, ok: bool)
    requires Conserved(g.book)
    ensures OneMore(g.book, g.ledger, BeginStep(g, id, raw, now, ok).0.ledger)
  {
    if id in g.book.reservations { OpenMore(g, id, Glob.Trim(raw), now, ok); }
  }

  lemma {:induction false} SettleMore(g: Gov, id: string, i: string, usage: Reported, now: nat, ok: bool)
    requires ReportedInRange(usage) && id in g.book.reservations && i in g.book.reservations[id].attempts && i != ""
    ensures OneMore(g.book, g.ledger, SettleStep(g, id, i, usage, now, ok).0.ledger)
  {
    var r := g.book.reservations[id];
    AppendMore(g, now, id,
               UsageRecorded(i, r.principal, r.model, i, r.attempts[i].window, usage.known, UsageTotal(usage),
                                         UsageCost(g.config, r.model, usage)), ok);
  }

  lemma {:induction false} ReleaseMore(g: Gov, id: string, now: nat, ok: bool)
    ensures OneMore(g.book, g.ledger, ReleaseStep(g, id, now, ok).0.ledger)
    ensures OneMore(g.book, g.ledger, HeartbeatStep(g, id, now, ok).ledger)
  {
    AppendMore(g, now, id, Released, ok);
    if id in g.book.reservations { AppendMore(g, now, id, Heartbeat(g.book.reservations[id].principal), ok); }
  }

  lemma {:induction false} OpenedSound(g: Gov, id: string, i: string, now: nat, ok: bool)
    requires Invariant(g) && id in g.book.reservations && i != "" && i !in g.book.reservations[id].attempts
    ensures Sound(OpenStep(g, id, i, now, ok).0.ledger)
  {
    var mid := OpenStep(g, id, i, now, ok).0;
    if g.journalUp {
      OpenStepOpened(g, id, i, now, ok);
      KeptIsFaithful(g, mid);
    } else {
      OpenStepDown(g, id, i, now, ok);
    }
  }

  lemma {:induction false} OpenSteadfast(g: Gov, id: string, i: string, now: nat, ok: bool)
    requires Invariant(g) && Steadfast(g.ledger)
    requires id in g.book.reservations && i != "" && i !in g.book.reservations[id].attempts
    ensures var (mid, outcome) := OpenStep(g, id, i, now, ok);
      && Steadfast(mid.ledger)
      && (outcome == Done ==> id in mid.book.reservations && i in mid.book.reservations[id].attempts)
  {
    OpenMore(g, id, i, now, ok);
    OpenedSound(g, id, i, now, ok);
    SteadfastMore(g.book, g.ledger, OpenStep(g, id, i, now, ok).0.ledger);
    OpenStepRunning(g, id, i, now, ok);
  }

  lemma {:induction false} RecordSteadfast(g: Gov, id: string, raw: string, usage: Reported, now: nat, okOpen: bool,
                                           ok: bool)
    requires Invariant(g) && Steadfast(g.ledger) && ReportedInRange(usage)
    requires Sound(RecordStep(g, id, raw, usage, now, okOpen, ok).0.ledger)
    ensures Steadfast(RecordStep(g, id, raw, usage, now, okOpen, ok).0.ledger)
  {
    var i := Glob.Trim(raw);
    var end := RecordStep(g, id, raw, usage, now, okOpen, ok).0;
    if ValidId(i) && id in g.book.reservations && i !in g.book.reservations[id].settlements {
      if i in g.book.reservations[id].attempts {
        SettleMore(g, id, i, usage, now, ok);
        SteadfastMore(g.book, g.ledger, end.ledger);
      } else {
        var (mid, outcome) := OpenStep(g, id, i, now, okOpen);
        OpenSteadfast(g, id, i, now, okOpen);
        if outcome == Done {
          SettleMore(mid, id, i, usage, now, ok);
          SteadfastMore(mid.book, mid.ledger, end.ledger);
        }
      }
    }
  }

  lemma {:induction false} ReconciledSteadfast(log: seq<Item<Event>>, order: seq<string>, now: int)
    requires Steadfast(log)
    ensures Steadfast(log + ReconciledItems(order, now))
    decreases |order|
  {
    if order == [] {
      assert log + ReconciledItems(order, now) == log;
    } else {
      var n := |order| - 1;
      ReconciledSteadfast(log, order[..n], now);
      var before, after := log + ReconciledItems(order[..n], now), log + ReconciledItems(order, now);
      assert after == before + [Item(now, order[n], Reconciled)];
      assert log[..|log|] == log;
      ReplayReconciled(log, order, now);
      DropEachConserves(Replay(log).value.book, order);
      SteadfastMore(Replay(log).value.book, before, after);
    }
  }

  lemma {:induction false} SimpleMore(g: Gov, op: Op)
    requires Conserved(g.book) && Possible(g, op) && !op.Restart? && !op.Record?
    ensures OneMore(g.book, g.ledger, Step(g, op).ledger)
  {
    match op
    case Apply(_) =>
    case Admit(id, adm, now, healthy, ok) => AdmitMore(g, id, adm, now, healthy, ok);
    case Bind(id, upstream, now, ok) => BindMore(g, id, upstream, now, ok);
    case Begin(id, attempt, now, ok) => BeginMore(g, id, attempt, now, ok);
    case Release(id, now, ok) => ReleaseMore(g, id, now, ok);
    case Beat(id, now, ok) => ReleaseMore(g, id, now, ok);
  }

  lemma {:induction false} StepSteadfast(g: Gov, op: Op)
    requires Invariant(g) && Steadfast(g.ledger) && Possible(g, op)
    ensures Steadfast(Step(g, op).ledger)
  {
    StepInvariant(g, op);
    if op.Restart? {
      ReconciledSteadfast(g.ledger, Written(op.order, op.good), op.now);
    } else if op.Record? {
      RecordSteadfast(g, op.id, op.settlement, op.usage, op.now, op.okOpen, op.ok);
    } else {
      SimpleMore(g, op);
      SteadfastMore(g.book, g.ledger, Step(g, op).ledger);
    }
  }

  lemma {:induction false} RunSteadfast(cfg: Config, gs: seq<Gov>, ops: seq<Op>, n: nat)
    requires IsRun(cfg, gs, ops) && n <= |ops|
    ensures Steadfast(gs[n].ledger)
  {
    if n == 0 {
      InitialInvariant(cfg);
      RefinesIsSound(Initial(cfg));
    } else {
      RunInvariant(cfg, gs, ops, n - 1);
      RunSteadfast(cfg, gs, ops, n - 1);
      StepSteadfast(gs[n - 1], ops[n - 1]);
    }
  }

  /** No sum that the replay of this ledger makes exceeds int64. */
  ghost predicate Within64(log: seq<Item<Event>>) {
    forall n :: 0 <= n < |log| && Replay(log[..n]).Some? ==> EntryWithin64(Replay(log[..n]).value, log[n].entity,
                                                                           log[n].payload)
  }

  ghost predicate EntryWithin64(p: Replica, id: string, e: Event) {
    && (var q := ReplayEvent(p, id, e); q.Some? ==> Fits64(q.value.book))
    && (e.Bound? && id in p.book.reservations ==>
          RoomToMove(p.book.usage, p.book.reservations[id],
                     ReboundReservation(p.book.reservations[id], e.upstream, e.keys, e.amounts)))
  }

  /** Whatever run wrote the ledger, the replay loop gives back what the ledger means, and a
      conserved book, as long as int64 suffices. */
  lemma {:induction false} RunLedgerLoads(cfg: Config, gs: seq<Gov>, ops: seq<Op>, n: nat)
    requires IsRun(cfg, gs, ops) && n <= |ops| && Within64(gs[n].ledger)
    ensures LedgerFits(gs[n].ledger) && Replay(gs[n].ledger).Some? && Conserved(Replay(gs[n].ledger).value.book)
  {
    var log := gs[n].ledger;
    RunSteadfast(cfg, gs, ops, n);
    assert log[..|log|] == log;
    forall k | 0 <= k < |log| && Replay(log[..k]).Some?
      ensures EventFits(Replay(log[..k]).value, log[k].entity, log[k].payload)
    {
      assert Sound(log[..k]);
      assert EntryWithin64(Replay(log[..k]).value, log[k].entity, log[k].payload);
    }
  }
}
