/** Compaction of a live manager's ledger: heartbeats are written for reservations with an open
    attempt only, so a live reservation without one may lose its entity. */
module GovernanceOrphans {
  import opened GovernanceBook
  import opened GovernancePolicy
  import opened JournalLog
  import opened Governance
  import opened GovernanceReplay
  import opened GovernanceCompaction
  import opened GovernanceLedger
  import Glob

  // ---------------------------------------------------------------- heartbeats

  lemma {:induction false} SurvivesAppend(log: seq<Item<Event>>, item: Item<Event>, cutoff: int, id: string)
    ensures Survives(log + [item], cutoff, {}, id)
       <==> Survives(log, cutoff, {}, id) || (item.entity == id && item.time >= cutoff)
  {
    var longer := log + [item];
    if Survives(log, cutoff, {}, id) {
      var i :| 0 <= i < |log| && log[i].entity == id && log[i].time >= cutoff;
      assert longer[i] == log[i];
    }
    assert longer[|log|] == item;
  }

  /** What holds of a manager whose journal is up, in any run. */
  ghost predicate Logged(g: Gov) { Invariant(g) && Refines(g) && g.journalUp && Lawful(g.ledger) }

  lemma {:induction false} BeatLedger(g: Gov, h: Gov, id: string, now: nat)
    requires g.journalUp && h == HeartbeatStep(g, id, now, true)
    ensures h == g.(ledger := h.ledger)
    ensures h.ledger == if id in g.book.reservations && HasOpen(g.book.reservations[id])
                        then g.ledger + [Item(now, id, Heartbeat(g.book.reservations[id].principal))] else g.ledger
  {}

  lemma {:induction false} BeatEffect(g: Gov, h: Gov, id: string, now: nat)
    requires Logged(g) && h == HeartbeatStep(g, id, now, true)
    ensures Logged(h) && h == g.(ledger := h.ledger)
  {
    BeatLedger(g, h, id, now);
    HeartbeatRefines(g, id, now, true);
    RefinesIsSound(h);
    BeatLawful(g.ledger, h.ledger);
  }

  lemma {:induction false} BeatLawful(log: seq<Item<Event>>, more: seq<Item<Event>>)
    requires Lawful(log)
    requires (more == log || (|more| == |log| + 1 && more[..|log|] == log && more[|log|].payload.Heartbeat?))
    ensures Lawful(more)
  {
    if more != log { LawfulMore(log, more); }
  }

  /** The heartbeats keep alive exactly the reservations with an open attempt. */
  lemma {:induction false} BeatEachSurvives(g: Gov, order: seq<string>, now: nat, good: nat, cutoff: int, id: string)
    requires Logged(g) && now >= cutoff && good >= |order|
    ensures var h := BeatEach(g, order, now, good);
      && Logged(h) && h == g.(ledger := h.ledger)
      && (Survives(h.ledger, cutoff, {}, id)
          <==> Survives(g.ledger, cutoff, {}, id)
               || (id in order && id in g.book.reservations && HasOpen(g.book.reservations[id])))
    decreases |order|
  {
    if order != [] {
      var past, last := order[..|order| - 1], order[|order| - 1];
      BeatEachSurvives(g, past, now, good, cutoff, id);
      assert order == past + [last];
      OneMoreBeat(g, BeatEach(g, past, now, good), BeatEach(g, order, now, good), past, last, now, cutoff, id);
    }
  }

  lemma {:induction false} OneMoreBeat(g: Gov, mid: Gov, h: Gov, past: seq<string>, last: string, now: nat,
                                       cutoff: int, id: string)
    requires Logged(mid) && mid == g.(ledger := mid.ledger) && h == HeartbeatStep(mid, last, now, true) && now >= cutoff
    requires Survives(mid.ledger, cutoff, {}, id)
      <==> Survives(g.ledger, cutoff, {}, id)
           || (id in past && id in g.book.reservations && HasOpen(g.book.reservations[id]))
    ensures Logged(h) && h == g.(ledger := h.ledger)
    ensures Survives(h.ledger, cutoff, {}, id)
       <==> Survives(g.ledger, cutoff, {}, id)
            || (id in past + [last] && id in g.book.reservations && HasOpen(g.book.reservations[id]))
  {
    BeatEffect(mid, h, last, now);
    BeatSurvives(mid, h, last, now, cutoff, id);
  }

  lemma {:induction false} BeatSurvives(g: Gov, h: Gov, beaten: string, now: nat, cutoff: int, id: string)
    requires g.journalUp && h == HeartbeatStep(g, beaten, now, true) && now >= cutoff
    ensures Survives(h.ledger, cutoff, {}, id)
       <==> Survives(g.ledger, cutoff, {}, id)
            || (id == beaten && id in g.book.reservations && HasOpen(g.book.reservations[id]))
  {
    BeatLedger(g, h, beaten, now);
    if beaten in g.book.reservations {
      SurvivesAppend(g.ledger, Item(now, beaten, Heartbeat(g.book.reservations[beaten].principal)), cutoff, id);
    }
  }

  // ---------------------------------------------------------------- what is written next

  /** An entry by which a reservation goes on: another attempt or a binding. */
  predicate GoesOn(e: Event) {
    (e.AttemptReserved? && e.attemptId != "" && e.window != ZERO_TIME) || (e.Bound? && e.upstream != "")
  }

  lemma {:induction false} GoesOnReplays(p: Replica, id: string, e: Event)
    requires GoesOn(e)
    ensures ReplayEvent(p, id, e).Some? <==> id in p.book.reservations
  {}

  lemma {:induction false} NextReplays(log: seq<Item<Event>>, cutoff: int, id: string, later: int, event: Event)
    requires Replay(log).Some? && Lawful(log) && id in Replay(log).value.book.reservations && GoesOn(event)
    ensures Replay(Compacted(log, cutoff, {})).Some?
    ensures Replay(Compacted(log, cutoff, {}) + [Item(later, id, event)]).Some? <==> Survives(log, cutoff, {}, id)
  {
    CompactedReplays(log, cutoff, Slot(Key(Principal, ""), 0), id);
    ReplayAppend(Compacted(log, cutoff, {}), Item(later, id, event));
    GoesOnReplays(Replay(Compacted(log, cutoff, {})).value, id, event);
  }

  lemma {:induction false} LoggedReplays(g: Gov, order: seq<string>, now: nat, cutoff: int, id: string, later: int,
                                         event: Event)
    requires Logged(g) && Enumerates(order, g.book.reservations.Keys) && now >= cutoff
    requires id in g.book.reservations && GoesOn(event)
    ensures var compacted := Compacted(BeatEach(g, order, now, |order|).ledger, cutoff, {});
      && Replay(compacted).Some?
      && (Replay(compacted + [Item(later, id, event)]).Some?
          <==> HasOpen(g.book.reservations[id]) || Survives(g.ledger, cutoff, {}, id))
  {
    var h := BeatEach(g, order, now, |order|);
    BeatEachSurvives(g, order, now, |order|, cutoff, id);
    NextReplays(h.ledger, cutoff, id, later, event);
  }

  lemma {:induction false} RunLogged(cfg: Config, gs: seq<Gov>, ops: seq<Op>, n: nat)
    requires IsRun(cfg, gs, ops) && n <= |ops| && gs[n].journalUp
    ensures Logged(gs[n])
  {
    RunInvariant(cfg, gs, ops, n);
    RunSteadfast(cfg, gs, ops, n);
  }

  /** In any run: after heartbeats and compaction the ledger still replays, and the next attempt
      or binding of a live reservation can be replayed on top of it exactly when the reservation
      has an open attempt or an entry at or after the cutoff. */
  lemma {:induction false} NextEntryReplaysIff(cfg: Config, gs: seq<Gov>, ops: seq<Op>, n: nat, order: seq<string>,
                                               now: nat, cutoff: int,
                                               id: string, later: int, event: Event)
    requires IsRun(cfg, gs, ops) && n <= |ops| && gs[n].journalUp
    requires Enumerates(order, gs[n].book.reservations.Keys) && now >= cutoff
    requires id in gs[n].book.reservations && GoesOn(event)
    ensures var compacted := Compacted(BeatEach(gs[n], order, now, |order|).ledger, cutoff, {});
      && Replay(compacted).Some?
      && (Replay(compacted + [Item(later, id, event)]).Some?
          <==> HasOpen(gs[n].book.reservations[id]) || Survives(gs[n].ledger, cutoff, {}, id))
  {
    RunLogged(cfg, gs, ops, n);
    LoggedReplays(gs[n], order, now, cutoff, id, later, event);
  }

  // ---------------------------------------------------------------- a run that loses its ledger

  /** c is the manager g after heartbeats and compaction. */
  ghost predicate IsCompacted(g: Gov, c: Gov, order: seq<string>, now: nat, cutoff: int) {
    c == g.(ledger := Compacted(BeatEach(g, order, now, |order|).ledger, cutoff, {}))
  }

  lemma {:induction false} OpenLogs(g: Gov, id: string, i: string, later: nat)
    requires id in g.book.reservations && g.journalUp && i != ""
    ensures var (h, outcome) := OpenStep(g, id, i, later, true);
      outcome == Done ==> exists event :: GoesOn(event) && h.ledger == g.ledger + [Item(later, id, event)]
  {
    var r := g.book.reservations[id];
    var event := AttemptReserved(r.principal, i, WindowOf(later), Amounts(g.config, g.estimates, r.model, r.keys),
                                 r.keys);
    assert GoesOn(event);
  }

  /** A live reservation that is left behind makes the ledger impossible to replay as soon as it
      begins another attempt. */
  lemma {:induction false} LeftBehind(g: Gov, c: Gov, order: seq<string>, now: nat, cutoff: int, id: string,
                                      i: string, later: nat)
    requires Logged(g) && Enumerates(order, g.book.reservations.Keys) && now >= cutoff
    requires IsCompacted(g, c, order, now, cutoff)
    requires id in g.book.reservations && !HasOpen(g.book.reservations[id]) && !Survives(g.ledger, cutoff, {}, id)
    requires i != ""
    ensures var (h, outcome) := OpenStep(c, id, i, later, true);
      outcome == Done ==> Replay(h.ledger).None?
  {
    var (h, outcome) := OpenStep(c, id, i, later, true);
    OpenLogs(c, id, i, later);
    if outcome == Done {
      var event :| GoesOn(event) && h.ledger == c.ledger + [Item(later, id, event)];
      LoggedReplays(g, order, now, cutoff, id, later, event);
    }
  }

  /** No limits at all. */
  const FREE := Config(true, false, 0, 0, 0, 0, 0, 0, 0, 0, 0, 0, false, map[], [])

  const CALLER := Admission("p", "", "m", "")

  const NOTHING := Reported(false, 0, 0, 0)

  /** A request is admitted, and its only attempt settled. */
  const RUN: seq<Op> := [Admit("a", CALLER, 0, true, true), Record("a", "attempt-1", NOTHING, 0, true, true)]

  lemma {:induction false} Spelling()
    ensures Glob.Trim("a") == "a" && Glob.Trim("p") == "p" && Glob.Trim("m") == "m" && Glob.Trim("") == ""
    ensures Glob.Trim("attempt-1") == "attempt-1"
  {}

  lemma {:induction false} FreeJudged(b: Book, id: string, window: int, keys: seq<Key>, amount: Amount)
    ensures JudgeAttempts(FREE, b, id, window, keys, amount, |keys|) == Fits
  {
    JudgeAttemptsFits(FREE, b, id, window, keys, amount, |keys|);
    forall i | 0 <= i < |keys| ensures JudgeAttempt(FREE, b, id, window, keys[i], amount) == Fits {
      assert LimitsUpTo(FREE, keys[i], 0) == Limits(false, 0, 0, 0, 0);
    }
  }

  /** The only reservation, and all that was written of it in the first minute. */
  predicate Alone(g: Gov, id: string) {
    && g.config == FREE && g.journalUp && g.book.reservations.Keys == {id}
    && forall i :: 0 <= i < |g.ledger| ==> g.ledger[i].time == 0
  }

  lemma {:induction false} FirstAlone(g: Gov, h: Gov, id: string, adm: Admission, keys: seq<Key>)
    requires g == Initial(FREE) && id == "a" && adm == CALLER && keys == BudgetKeys(FREE, CALLER)
    requires h == AdmitStep(g, id, adm, 0, true, true).0
    ensures Alone(h, id) && h.book.reservations[id].settlements == map[]
    ensures h.book.reservations[id].attempts.Keys == {FIRST_ATTEMPT}
  {
    Spelling();
    FreeJudged(g.book, id, WindowOf(0), keys, Amounts(FREE, g.estimates, "m", keys));
    assert !TenantRequired(FREE);
  }

  lemma {:induction false} ThenSettled(g: Gov, h: Gov, id: string, i: string)
    requires Alone(g, id) && i == FIRST_ATTEMPT && g.book.reservations[id].settlements == map[]
    requires g.book.reservations[id].attempts.Keys == {i} && h == RecordStep(g, id, i, NOTHING, 0, true, true).0
    ensures Alone(h, id) && !HasOpen(h.book.reservations[id]) && h.book.reservations[id].attempts.Keys == {i}
  {
    Spelling();
    var r := h.book.reservations[id];
    assert r.attempts[i].released;
  }

  lemma {:induction false} BeginAccepted(c: Gov, id: string, i: string, later: nat)
    requires c.config == FREE && c.journalUp && id in c.book.reservations
    ensures OpenStep(c, id, i, later, true).1 == Done
  {
    var r := c.book.reservations[id];
    FreeJudged(c.book, id, WindowOf(later), r.keys, Amounts(FREE, c.estimates, r.model, r.keys));
  }

  /** A live reservation without an open attempt, compacted at a later moment. */
  ghost predicate Deserted(g: Gov, c: Gov, order: seq<string>, id: string, now: nat, cutoff: int) {
    && Logged(g) && Alone(g, id) && !HasOpen(g.book.reservations[id])
    && order == [id] && 0 < cutoff <= now && IsCompacted(g, c, order, now, cutoff)
  }

  /** Accepted, and the ledger can no longer be replayed. */
  ghost predicate Stranded(step: (Gov, Outcome)) { step.1 == Done && Replay(step.0.ledger).None? }

  lemma {:induction false} LosesLedger(g: Gov, c: Gov, order: seq<string>, id: string, raw: string, now: nat,
                                       cutoff: int)
    requires Deserted(g, c, order, id, now, cutoff)
    requires g.book.reservations[id].attempts.Keys == {FIRST_ATTEMPT}
    requires ValidId(Glob.Trim(raw)) && Glob.Trim(raw) != FIRST_ATTEMPT
    ensures Stranded(BeginStep(c, id, raw, now, true))
  {
    CompactionKeepsBook(g, c, order, now, cutoff);
    BeginIsOpen(c, id, raw, now);
    StrandedBegin(g, c, order, id, raw, Glob.Trim(raw), now, cutoff);
  }

  lemma {:induction false} StrandedBegin(g: Gov, c: Gov, order: seq<string>, id: string, raw: string, i: string,
                                         now: nat, cutoff: int)
    requires Deserted(g, c, order, id, now, cutoff) && i != ""
    requires BeginStep(c, id, raw, now, true) == OpenStep(c, id, i, now, true)
    ensures Stranded(BeginStep(c, id, raw, now, true))
  {
    RetryLosesLedger(g, c, order, id, i, now, cutoff);
  }

  lemma {:induction false} CompactionKeepsBook(g: Gov, c: Gov, order: seq<string>, now: nat, cutoff: int)
    requires IsCompacted(g, c, order, now, cutoff)
    ensures c.book == g.book
  {}

  lemma {:induction false} RetryLosesLedger(g: Gov, c: Gov, order: seq<string>, id: string, i: string, now: nat,
                                            cutoff: int)
    requires Deserted(g, c, order, id, now, cutoff) && i != ""
    ensures Stranded(OpenStep(c, id, i, now, true))
  {
    assert !Survives(g.ledger, cutoff, {}, id);
    LeftBehind(g, c, order, now, cutoff, id, i, now);
    BeginAccepted(c, id, i, now);
  }

  lemma {:induction false} BeginIsOpen(c: Gov, id: string, raw: string, now: nat)
    requires ValidId(Glob.Trim(raw)) && id in c.book.reservations
    requires Glob.Trim(raw) !in c.book.reservations[id].attempts
    ensures BeginStep(c, id, raw, now, true) == OpenStep(c, id, Glob.Trim(raw), now, true)
  {}

  lemma {:induction false} AloneAndSettled(gs: seq<Gov>, id: string, i: string, n: nat)
    requires IsRun(FREE, gs, RUN) && id == "a" && i == FIRST_ATTEMPT && n == 2
    ensures Logged(gs[n]) && Alone(gs[n], id) && !HasOpen(gs[n].book.reservations[id])
    ensures gs[n].book.reservations[id].attempts.Keys == {i}
  {
    assert gs[n - 1] == Step(gs[n - 2], RUN[0]) && gs[n] == Step(gs[n - 1], RUN[1]);
    FirstAlone(gs[n - 2], gs[n - 1], id, CALLER, BudgetKeys(FREE, CALLER));
    ThenSettled(gs[n - 1], gs[n], id, i);
    RunLogged(FREE, gs, RUN, n);
  }

  /** A request is admitted and settled in the first minute and kept for a retry.  Later the
      ledger is compacted with a cutoff after that minute, and the retry begins: it is accepted,
      and no later process can replay the ledger. */
  lemma {:induction false} SettledReservationIsOrphaned(gs: seq<Gov>, c: Gov, raw: string, now: nat, cutoff: int)
    requires IsRun(FREE, gs, RUN) && 0 < cutoff <= now && IsCompacted(gs[2], c, ["a"], now, cutoff)
    requires ValidId(Glob.Trim(raw)) && Glob.Trim(raw) != FIRST_ATTEMPT
    ensures var (h, outcome) := BeginStep(c, "a", raw, now, true);
      outcome == Done && Replay(h.ledger).None?
  {
    AloneAndSettled(gs, "a", FIRST_ATTEMPT, 2);
    LosesLedger(gs[2], c, ["a"], "a", raw, now, cutoff);
  }
}
