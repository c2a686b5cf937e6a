/** Whole lifetimes of a usage ledger: processes that start, run, compact the ledger and die, one
    after the other.  The state machine keeps its full ledger since the last start as history;
    the disk holds what compaction left of it. */
module GovernanceLifetime {
  import opened GovernanceBook
  import opened GovernancePolicy
  import opened JournalLog
  import opened Governance
  import opened GovernanceConservation
  import opened GovernanceReplay
  import opened GovernanceProper
  import opened GovernanceCompaction
  import opened GovernanceLedger
  import opened GovernanceOrphans
  import Glob

  /** Windows from the horizon on have not been touched by compaction. */
  datatype Life = Life(g: Gov, disk: seq<Item<Event>>, horizon: int)

  /** The heartbeats of a compaction before position good can be written. */
  datatype Act = Do(op: Op) | Compaction(order: seq<string>, now: nat, good: nat, cutoff: int)

  /** The entries added since the ledger was n long. */
  function Added(log: seq<Item<Event>>, n: nat): seq<Item<Event>> { if n <= |log| then log[n..] else [] }

  /** The process goes on to h; what it writes goes to the disk as well. */
  function Onward(l: Life, h: Gov): Life { l.(g := h, disk := l.disk + Added(h.ledger, |l.g.ledger|)) }

  ghost function Beats(l: Life, order: seq<string>, now: nat, good: nat): Life {
    if order == [] then l else
      var n := |order| - 1;
      var before := Beats(l, order[..n], now, good);
      Onward(before, HeartbeatStep(before.g, order[n], now, n < good))
  }

  function Truncate(l: Life, cutoff: int): Life {
    l.(disk := Compacted(l.disk, cutoff, {}), horizon := Max(l.horizon, cutoff))
  }

  ghost function Shortened(l: Life, order: seq<string>, now: nat, good: nat, cutoff: int): Life {
    var beaten := Beats(l, order, now, good);
    if Compacts(l.g, beaten.g) then Truncate(beaten, cutoff) else beaten
  }

  ghost function Restarted(l: Life, order: seq<string>, now: nat, good: nat): Life {
    var h := RestartStep(l.g.(ledger := l.disk), order, now, good);
    l.(g := h, disk := h.ledger)
  }

  /** A reservation of the history that compaction has taken off the disk. */
  ghost predicate Lost(log: seq<Item<Event>>, disk: seq<Item<Event>>, id: string) {
    && Replay(log).Some? && Replay(disk).Some?
    && id in Replay(log).value.book.reservations && id !in Replay(disk).value.book.reservations
  }

  /** The first entry written on the way to h is for a reservation that the disk no longer
      knows, and does not just end it. */
  ghost predicate Strays(l: Life, h: Gov) {
    && |h.ledger| > |l.g.ledger| && Lost(l.g.ledger, l.disk, h.ledger[|l.g.ledger|].entity)
    && !Ends(h.ledger[|l.g.ledger|].payload)
  }

  /** The entry just closes its reservation. */
  predicate Ends(e: Event) { e.Released? || e.Reconciled? }

  /** An operation must not stray.  A compaction has its cutoff in the past, and visits every
      reservation unless a heartbeat stops it. */
  ghost predicate Allowed(l: Life, act: Act) {
    match act
    case Do(op) =>
      if op.Restart? then Replay(l.disk).Some? && Enumerates(op.order, Replay(l.disk).value.book.reservations.Keys)
      else Possible(l.g, op) && !Strays(l, Step(l.g, op))
    case Compaction(order, now, good, cutoff) =>
      && l.g.running && cutoff <= now
      && (Compacts(l.g, Beats(l, order, now, good).g) ==> Enumerates(order, l.g.book.reservations.Keys))
  }

  ghost function Next(l: Life, act: Act): Life
    requires Allowed(l, act)
  {
    match act
    case Do(op) => if op.Restart? then Restarted(l, op.order, op.now, op.good) else Onward(l, Step(l.g, op))
    case Compaction(order, now, good, cutoff) => Shortened(l, order, now, good, cutoff)
  }

  // ---------------------------------------------------------------- disk and history

  /** The disk's book q is the history's book p without some reservations that charged only
      windows before the horizon. */
  ghost predicate Remains(p: Book, q: Book, horizon: int) { Restricts(p, q, q.reservations.Keys, horizon) }

  ghost predicate Mirrored(log: seq<Item<Event>>, disk: seq<Item<Event>>, horizon: int) {
    && Replay(log).Some? && Replay(disk).Some? && Remains(Replay(log).value.book, Replay(disk).value.book, horizon)
  }

  /** Nothing is open that the disk does not know. */
  ghost predicate LostAreClosed(log: seq<Item<Event>>, disk: seq<Item<Event>>) {
    forall id :: Lost(log, disk, id) ==> !HasOpen(Replay(log).value.book.reservations[id])
  }

  ghost predicate Clean(disk: seq<Item<Event>>) { ProperLog(disk) && Lawful(disk) }

  /** What holds at any time of any lifetime. */
  ghost predicate Alive(l: Life) {
    && Invariant(l.g) && Clean(l.disk) && Mirrored(l.g.ledger, l.disk, l.horizon)
    && (l.g.journalUp ==> LostAreClosed(l.g.ledger, l.disk))
  }

  /** An entry leaves the reservations of other entities alone. */
  lemma {:induction false} ReplayLocal(p: Replica, id: string, e: Event, other: string)
    requires ReplayEvent(p, id, e).Some? && other != id
    ensures var c := ReplayEvent(p, id, e).value.book;
      && (other in c.reservations <==> other in p.book.reservations)
      && (other in c.reservations ==> c.reservations[other] == p.book.reservations[other])
  {}

  lemma {:induction false} WithOne(p: Book, q: Book, horizon: int, id: string)
    requires Remains(p, q, horizon) && (id in p.reservations ==> id in q.reservations)
    ensures Restricts(p, q, q.reservations.Keys + {id}, horizon)
  {}

  lemma {:induction false} WithoutOne(p: Book, q: Book, kept: set<string>, horizon: int)
    requires Restricts(p, q, kept, horizon)
    ensures Remains(p, q, horizon)
  {}

  /** An entry for a reservation that the disk knows, or for a new one. */
  lemma {:induction false} KnownFollows(p: Replica, q: Replica, id: string, e: Event, horizon: int)
    requires Remains(p.book, q.book, horizon) && (id in p.book.reservations ==> id in q.book.reservations)
    requires ReplayEvent(p, id, e).Some?
    ensures ReplayEvent(q, id, e).Some?
    ensures var c, d := ReplayEvent(p, id, e).value.book, ReplayEvent(q, id, e).value.book;
      Remains(c, d, horizon) && (id in c.reservations ==> id in d.reservations)
  {
    var kept := q.book.reservations.Keys + {id};
    WithOne(p.book, q.book, horizon, id);
    KeptEvent(p, q, kept, horizon, id, e);
    WithoutOne(ReplayEvent(p, id, e).value.book, ReplayEvent(q, id, e).value.book, kept, horizon);
  }

  /** The end of a reservation that the disk does not know. */
  lemma {:induction false} LostFollows(p: Replica, q: Replica, id: string, e: Event, horizon: int)
    requires Remains(p.book, q.book, horizon) && id !in q.book.reservations && Ends(e)
    ensures ReplayEvent(q, id, e) == Options.Some(q)
    ensures Remains(ReplayEvent(p, id, e).value.book, q.book, horizon)
  {
    DroppedDrop(p.book, horizon, id);
    DroppedRestricts(p.book, Drop(p.book, id), q.book, q.book.reservations.Keys, horizon, id);
  }

  /** One more entry, in the history and on the disk. */
  lemma {:induction false} MirroredMore(log: seq<Item<Event>>, disk: seq<Item<Event>>, horizon: int, item: Item<Event>)
    requires Mirrored(log, disk, horizon) && Replay(log + [item]).Some?
    requires Lost(log, disk, item.entity) ==> Ends(item.payload)
    ensures Mirrored(log + [item], disk + [item], horizon)
    ensures !Lost(log, disk, item.entity) ==> !Lost(log + [item], disk + [item], item.entity)
  {
    var p, q := Replay(log).value, Replay(disk).value;
    ReplayAppend(log, item);
    ReplayAppend(disk, item);
    if Lost(log, disk, item.entity) {
      LostFollows(p, q, item.entity, item.payload, horizon);
    } else {
      KnownFollows(p, q, item.entity, item.payload, horizon);
    }
  }

  /** Another reservation is lost after the entry only if it was lost before it. */
  lemma {:induction false} LostBefore(log: seq<Item<Event>>, disk: seq<Item<Event>>, item: Item<Event>, other: string)
    requires Replay(log).Some? && Replay(disk).Some? && Lost(log + [item], disk + [item], other) && other != item.entity
    ensures Lost(log, disk, other)
    ensures Replay(log + [item]).value.book.reservations[other] == Replay(log).value.book.reservations[other]
  {
    ReplayAppend(log, item);
    ReplayAppend(disk, item);
    ReplayLocal(Replay(log).value, item.entity, item.payload, other);
    ReplayLocal(Replay(disk).value, item.entity, item.payload, other);
  }

  lemma {:induction false} EndedIsGone(log: seq<Item<Event>>, item: Item<Event>)
    requires Replay(log).Some? && Ends(item.payload)
    ensures Replay(log + [item]).Some? && item.entity !in Replay(log + [item]).value.book.reservations
  {
    ReplayAppend(log, item);
  }

  lemma {:induction false} ClosedMore(log: seq<Item<Event>>, disk: seq<Item<Event>>, horizon: int, item: Item<Event>)
    requires Mirrored(log, disk, horizon) && LostAreClosed(log, disk)
    requires Lost(log, disk, item.entity) ==> Ends(item.payload)
    requires !Lost(log, disk, item.entity) ==> !Lost(log + [item], disk + [item], item.entity)
    ensures LostAreClosed(log + [item], disk + [item])
  {
    forall other | Lost(log + [item], disk + [item], other)
      ensures !HasOpen(Replay(log + [item]).value.book.reservations[other])
    {
      if other == item.entity {
        EndedIsGone(log, item);
      } else {
        LostBefore(log, disk, item, other);
      }
    }
  }

  lemma {:induction false} CleanMore(b: Book, log: seq<Item<Event>>, disk: seq<Item<Event>>, horizon: int,
                                     item: Item<Event>)
    requires Clean(disk) && Mirrored(log, disk, horizon) && Agree(Replay(log).value.book, b) && Fitting(b, item)
    requires Lost(log, disk, item.entity) ==> Ends(item.payload)
    ensures Clean(disk + [item])
  {
    var p, q := Replay(log).value.book, Replay(disk).value.book;
    AgreeOwn(p, b, item.entity);
    if !Lost(log, disk, item.entity) { ProperOwn(b, q, item.entity, item.payload); }
    ProperAppend(disk, item);
    assert (disk + [item])[..|disk|] == disk;
    LawfulMore(disk, disk + [item]);
  }

  // ---------------------------------------------------------------- the running process

  /** The journal, once down, stays down. */
  predicate Continues(g: Gov, h: Gov) { h.journalUp ==> g.journalUp }

  lemma {:induction false} OnwardAlive(l: Life, h: Gov)
    requires Alive(l) && Ready(l.g, h) && !Strays(l, h)
    ensures Alive(Onward(l, h))
    ensures h.ledger != l.g.ledger ==>
      var id := h.ledger[|l.g.ledger|].entity;
      !Lost(l.g.ledger, l.disk, id) ==> !Lost(h.ledger, Onward(l, h).disk, id)
  {
    if h.ledger == l.g.ledger {
      assert l.disk + Added(h.ledger, |l.g.ledger|) == l.disk;
    } else {
      EntryFollows(l.g.book, l.g.ledger, h.ledger, l.disk, l.horizon, h.ledger[|l.g.ledger|]);
    }
  }

  lemma {:induction false} EntryFollows(b: Book, log: seq<Item<Event>>, more: seq<Item<Event>>, disk: seq<Item<Event>>,
                                        horizon: int, item: Item<Event>)
    requires Clean(disk) && Mirrored(log, disk, horizon) && LostAreClosed(log, disk) && Agree(Replay(log).value.book, b)
    requires OneMore(b, log, more) && more != log && Replay(more).Some? && item == more[|log|]
    requires Lost(log, disk, item.entity) ==> Ends(item.payload)
    ensures var longer := disk + Added(more, |log|);
      && Clean(longer) && Mirrored(more, longer, horizon) && LostAreClosed(more, longer)
      && (!Lost(log, disk, item.entity) ==> !Lost(more, longer, item.entity))
  {
    assert more == log + [item] && Added(more, |log|) == [item];
    MirroredMore(log, disk, horizon, item);
    ClosedMore(log, disk, horizon, item);
    CleanMore(b, log, disk, horizon, item);
  }

  lemma {:induction false} StepContinues(g: Gov, op: Op)
    requires Possible(g, op) && !op.Restart?
    ensures Continues(g, Step(g, op)) && (!g.journalUp ==> Step(g, op).ledger == g.ledger)
  {
    if !g.journalUp { DownStays(g, op); }
  }

  lemma {:induction false} StepOnward(l: Life, op: Op)
    requires Alive(l) && Possible(l.g, op) && !op.Restart? && !op.Record? && !Strays(l, Step(l.g, op))
    ensures Alive(Onward(l, Step(l.g, op)))
  {
    StepInvariant(l.g, op);
    SimpleMore(l.g, op);
    StepContinues(l.g, op);
    OnwardAlive(l, Step(l.g, op));
  }

  lemma {:induction false} MidInvariant(g: Gov, id: string, i: string, now: nat, ok: bool)
    requires Invariant(g) && g.running && id in g.book.reservations && i != "" && i !in g.book.reservations[id].attempts
    ensures Invariant(OpenStep(g, id, i, now, ok).0)
  {
    var mid := OpenStep(g, id, i, now, ok).0;
    OpenStepConserves(g, id, i, now, ok);
    OpenStepRunning(g, id, i, now, ok);
    OpenedSound(g, id, i, now, ok);
    if g.journalUp { OpenStepOpened(g, id, i, now, ok); } else { OpenStepDown(g, id, i, now, ok); }
  }

  lemma {:induction false} OpenOnward(l: Life, mid: Gov, id: string, i: string, now: nat, ok: bool)
    requires Alive(l) && l.g.running && id in l.g.book.reservations && i != ""
    requires i !in l.g.book.reservations[id].attempts
    requires mid == OpenStep(l.g, id, i, now, ok).0 && !Strays(l, mid)
    ensures Alive(Onward(l, mid))
    ensures mid.ledger != l.g.ledger ==> !Lost(mid.ledger, Onward(l, mid).disk, id)
  {
    OpenFollows(l.g, mid, id, i, now, ok);
    NewAttemptOnward(l, mid, id);
  }

  /** What carries an operation over to the disk. */
  ghost predicate Ready(g: Gov, h: Gov) {
    && Invariant(h) && OneMore(g.book, g.ledger, h.ledger) && Continues(g, h)
    && (h.ledger != g.ledger ==> Refines(g) && g.journalUp)
  }

  lemma {:induction false} OpenFollows(g: Gov, mid: Gov, id: string, i: string, now: nat, ok: bool)
    requires Invariant(g) && g.running && id in g.book.reservations && i != "" && i !in g.book.reservations[id].attempts
    requires mid == OpenStep(g, id, i, now, ok).0
    ensures Ready(g, mid)
    ensures mid.ledger != g.ledger ==>
      |mid.ledger| == |g.ledger| + 1 && mid.ledger[|g.ledger|].entity == id && !Ends(mid.ledger[|g.ledger|].payload)
  {
    MidInvariant(g, id, i, now, ok);
    OpenMore(g, id, i, now, ok);
    if !g.journalUp { OpenStepDown(g, id, i, now, ok); }
    OpenEntry(g, mid, id, i, now, ok);
  }

  lemma {:induction false} NewAttemptOnward(l: Life, mid: Gov, id: string)
    requires Alive(l) && Ready(l.g, mid) && !Strays(l, mid)
    requires mid.ledger != l.g.ledger ==>
      && |mid.ledger| == |l.g.ledger| + 1 && mid.ledger[|l.g.ledger|].entity == id
      && !Ends(mid.ledger[|l.g.ledger|].payload)
    ensures Alive(Onward(l, mid))
    ensures mid.ledger != l.g.ledger ==> !Lost(mid.ledger, Onward(l, mid).disk, id)
  {
    OnwardAlive(l, mid);
  }

  lemma {:induction false} OpenEntry(g: Gov, mid: Gov, id: string, i: string, now: nat, ok: bool)
    requires id in g.book.reservations && mid == OpenStep(g, id, i, now, ok).0
    ensures mid.ledger != g.ledger ==>
      |mid.ledger| == |g.ledger| + 1 && mid.ledger[|g.ledger|].entity == id
      && mid.ledger[|g.ledger|].payload.AttemptReserved?
  {}

  lemma {:induction false} SettleEntry(g: Gov, h: Gov, id: string, i: string, usage: Reported, now: nat, ok: bool)
    requires ReportedInRange(usage) && id in g.book.reservations && i in g.book.reservations[id].attempts
    requires h == SettleStep(g, id, i, usage, now, ok).0
    ensures h.ledger != g.ledger ==> |h.ledger| == |g.ledger| + 1 && h.ledger[|g.ledger|].entity == id
  {}

  lemma {:induction false} SettleOnward(l: Life, h: Gov, id: string, i: string, usage: Reported, now: nat, ok: bool)
    requires Alive(l) && Invariant(h) && ReportedInRange(usage) && i != ""
    requires id in l.g.book.reservations && i in l.g.book.reservations[id].attempts
    requires h == SettleStep(l.g, id, i, usage, now, ok).0
    requires l.g.running && !Strays(l, h)
    ensures Alive(Onward(l, h))
  {
    SettleMore(l.g, id, i, usage, now, ok);
    if !l.g.journalUp { SettleStepDown(l.g, id, i, usage, now, ok); }
    OnwardAlive(l, h);
  }

  lemma {:induction false} OnwardTwice(l: Life, mid: Gov, h: Gov)
    requires l.g.ledger <= mid.ledger <= h.ledger
    ensures Onward(Onward(l, mid), h) == Onward(l, h)
  {
    assert Added(mid.ledger, |l.g.ledger|) + Added(h.ledger, |mid.ledger|) == Added(h.ledger, |l.g.ledger|);
  }

  lemma {:induction false} OneMoreIsPrefix(b: Book, log: seq<Item<Event>>, more: seq<Item<Event>>)
    requires OneMore(b, log, more)
    ensures log <= more
  {}

  lemma {:induction false} RecordNewOnward(l: Life, mid: Gov, h: Gov, id: string, i: string, usage: Reported,
                                           now: nat, okOpen: bool, ok: bool)
    requires Alive(l) && l.g.running && ReportedInRange(usage) && i != "" && Invariant(h)
    requires id in l.g.book.reservations && i !in l.g.book.reservations[id].attempts
    requires mid == OpenStep(l.g, id, i, now, okOpen).0 && mid.running
    requires id in mid.book.reservations && i in mid.book.reservations[id].attempts
    requires h == SettleStep(mid, id, i, usage, now, ok).0 && !Strays(l, h)
    ensures Alive(Onward(l, h))
  {
    OpenMore(l.g, id, i, now, okOpen);
    SettleMore(mid, id, i, usage, now, ok);
    OneMoreIsPrefix(l.g.book, l.g.ledger, mid.ledger);
    OneMoreIsPrefix(mid.book, mid.ledger, h.ledger);
    OpenOnward(l, mid, id, i, now, okOpen);
    SecondKnown(l, mid, h, id, i, usage, now, ok);
    SettleOnward(Onward(l, mid), h, id, i, usage, now, ok);
    OnwardTwice(l, mid, h);
  }

  /** The settlement follows the attempt it has just reserved. */
  lemma {:induction false} SecondKnown(l: Life, mid: Gov, h: Gov, id: string, i: string, usage: Reported, now: nat,
                                       ok: bool)
    requires ReportedInRange(usage) && id in mid.book.reservations && i in mid.book.reservations[id].attempts
    requires h == SettleStep(mid, id, i, usage, now, ok).0 && l.g.ledger <= mid.ledger <= h.ledger && !Strays(l, h)
    requires mid.ledger != l.g.ledger ==> !Lost(mid.ledger, Onward(l, mid).disk, id)
    ensures !Strays(Onward(l, mid), h)
  {
    SettleEntry(mid, h, id, i, usage, now, ok);
    if mid.ledger == l.g.ledger { assert Onward(l, mid).disk == l.disk; }
  }

  lemma {:induction false} RecordOnward(l: Life, h: Gov, id: string, raw: string, usage: Reported, now: nat,
                                        okOpen: bool, ok: bool)
    requires Alive(l) && l.g.running && ReportedInRange(usage) && Invariant(h)
    requires h == RecordStep(l.g, id, raw, usage, now, okOpen, ok).0 && !Strays(l, h)
    ensures Alive(Onward(l, h))
  {
    var i := Glob.Trim(raw);
    if ValidId(i) && id in l.g.book.reservations && i !in l.g.book.reservations[id].settlements {
      if i in l.g.book.reservations[id].attempts {
        SettleOnward(l, h, id, i, usage, now, ok);
      } else {
        var (mid, outcome) := OpenStep(l.g, id, i, now, okOpen);
        OpenStepRunning(l.g, id, i, now, okOpen);
        if outcome == Done {
          RecordNewOnward(l, mid, h, id, i, usage, now, okOpen, ok);
        } else {
          OpenOnward(l, mid, id, i, now, okOpen);
        }
      }
    } else {
      OnwardAlive(l, h);
    }
  }

  // ---------------------------------------------------------------- compaction

  lemma {:induction false} AgreeOpen(p: Book, b: Book, id: string)
    requires Agree(p, b) && id in b.reservations
    ensures HasOpen(p.reservations[id]) <==> HasOpen(b.reservations[id])
  {
    var r, q := p.reservations[id], b.reservations[id];
    assert SameReservation(r, q);
    if HasOpen(r) {
      var i :| i in r.attempts && Open(r.attempts[i]);
      assert SameAttempt(r.attempts[i], q.attempts[i]);
    }
    if HasOpen(q) {
      var i :| i in q.attempts && Open(q.attempts[i]);
      assert SameAttempt(r.attempts[i], q.attempts[i]);
    }
  }

  lemma {:induction false} BeatKnown(l: Life, h: Gov, beaten: string, now: nat, ok: bool)
    requires Alive(l) && l.g.running && h == HeartbeatStep(l.g, beaten, now, ok)
    ensures !Strays(l, h)
  {
    if |h.ledger| > |l.g.ledger| { AgreeOpen(Replay(l.g.ledger).value.book, l.g.book, beaten); }
  }

  /** What the heartbeats do not touch. */
  predicate SameProcess(l: Life, m: Life) {
    && m.g.book == l.g.book && m.g.config == l.g.config && m.g.running == l.g.running && m.horizon == l.horizon
    && (m.g.journalUp ==> l.g.journalUp)
  }

  /** Heartbeats that all reach the disk keep the reservations with an open attempt. */
  lemma {:induction false} BeatsSurvive(l: Life, order: seq<string>, now: nat, good: nat, cutoff: int, id: string)
    requires Alive(l) && l.g.running && now >= cutoff
    ensures var m := Beats(l, order, now, good);
      && Alive(m) && SameProcess(l, m)
      && (m.g.journalUp && id in order && id in l.g.book.reservations && HasOpen(l.g.book.reservations[id])
          ==> Survives(m.disk, cutoff, {}, id))
    decreases |order|
  {
    if order != [] {
      var past, last := order[..|order| - 1], order[|order| - 1];
      var mid := Beats(l, past, now, good);
      BeatsSurvive(l, past, now, good, cutoff, id);
      assert order == past + [last];
      BeatsNext(l, mid, HeartbeatStep(mid.g, last, now, |past| < good), past, last, now, |past| < good, cutoff, id);
    }
  }

  lemma {:induction false} BeatsNext(l: Life, mid: Life, h: Gov, past: seq<string>, last: string, now: nat, ok: bool,
                                     cutoff: int, id: string)
    requires Alive(mid) && SameProcess(l, mid) && l.g.running && now >= cutoff
    requires h == HeartbeatStep(mid.g, last, now, ok)
    requires mid.g.journalUp && id in past && id in l.g.book.reservations && HasOpen(l.g.book.reservations[id])
      ==> Survives(mid.disk, cutoff, {}, id)
    ensures Alive(Onward(mid, h)) && SameProcess(l, Onward(mid, h))
    ensures h.journalUp && id in past + [last] && id in l.g.book.reservations && HasOpen(l.g.book.reservations[id])
      ==> Survives(Onward(mid, h).disk, cutoff, {}, id)
  {
    BeatOnward(mid, h, last, now, ok, cutoff, id);
  }

  lemma {:induction false} BeatOnward(l: Life, h: Gov, beaten: string, now: nat, ok: bool, cutoff: int, id: string)
    requires Alive(l) && l.g.running && now >= cutoff && h == HeartbeatStep(l.g, beaten, now, ok)
    ensures var m := Onward(l, h);
      && Alive(m) && SameProcess(l, m)
      && (Survives(l.disk, cutoff, {}, id) ==> Survives(m.disk, cutoff, {}, id))
      && (m.g.journalUp && id == beaten && id in l.g.book.reservations && HasOpen(l.g.book.reservations[id])
          ==> Survives(m.disk, cutoff, {}, id))
  {
    BeatKnown(l, h, beaten, now, ok);
    StepOnward(l, Beat(beaten, now, ok));
    BeatEntry(l.g, h, beaten, now, ok);
    BeatDisk(l.disk, l.g.ledger, h.ledger, beaten, now, cutoff, id);
  }

  lemma {:induction false} BeatEntry(g: Gov, h: Gov, beaten: string, now: nat, ok: bool)
    requires h == HeartbeatStep(g, beaten, now, ok)
    ensures h.book == g.book && h.config == g.config && h.running == g.running && (h.journalUp ==> g.journalUp)
    ensures h.ledger == g.ledger
      || (|h.ledger| == |g.ledger| + 1 && h.ledger[|g.ledger|].entity == beaten && h.ledger[|g.ledger|].time == now)
    ensures h.journalUp && beaten in g.book.reservations && HasOpen(g.book.reservations[beaten])
      ==> h.ledger != g.ledger
  {}

  lemma {:induction false} BeatDisk(disk: seq<Item<Event>>, log: seq<Item<Event>>, more: seq<Item<Event>>,
                                    beaten: string, now: int, cutoff: int, id: string)
    requires more == log || (|more| == |log| + 1 && more[|log|].entity == beaten && more[|log|].time == now >= cutoff)
    ensures Survives(disk + Added(more, |log|), cutoff, {}, id)
       <==> Survives(disk, cutoff, {}, id) || (more != log && id == beaten)
  {
    if more == log {
      assert disk + Added(more, |log|) == disk;
    } else {
      assert Added(more, |log|) == [more[|log|]];
      SurvivesAppend(disk, more[|log|], cutoff, id);
    }
  }

  lemma {:induction false} OnlyClean(log: seq<Item<Event>>, kept: set<string>, cutoff: int)
    requires Clean(log) && Replay(log).Some?
    requires forall i :: 0 <= i < |log| && log[i].entity !in kept ==> log[i].time < cutoff
    ensures Clean(Only(log, kept))
  {
    if log != [] {
      var past, item := log[..|log| - 1], log[|log| - 1];
      OnlyClean(past, kept, cutoff);
      if item.entity in kept {
        OnlyReplays(past, kept, cutoff);
        var p, q := Replay(past).value.book, Replay(Only(past, kept)).value.book;
        OwnRestricted(p, q, kept, cutoff, item.entity);
        ProperOwn(p, q, item.entity, item.payload);
        ProperAppend(Only(past, kept), item);
        assert (Only(past, kept) + [item])[..|Only(past, kept)|] == Only(past, kept);
        LawfulMore(Only(past, kept), Only(past, kept) + [item]);
      }
    }
  }

  lemma {:induction false} OwnRestricted(p: Book, q: Book, kept: set<string>, cutoff: int, id: string)
    requires Restricts(p, q, kept, cutoff) && id in kept
    ensures SameOwn(p, q, id)
  {}

  lemma {:induction false} SameLateBoth(u: map<Slot, Usage>, v: map<Slot, Usage>, w: map<Slot, Usage>, horizon: int,
                                        cutoff: int)
    requires SameLate(u, v, horizon) && SameLate(v, w, cutoff)
    ensures SameLate(u, w, Max(horizon, cutoff))
  {}

  lemma {:induction false} EarlierRemains(p: Book, q: Book, c: Book, kept: set<string>, horizon: int, cutoff: int)
    requires Remains(p, q, horizon) && Restricts(q, c, kept, cutoff)
    ensures Remains(p, c, Max(horizon, cutoff))
  {
    SameLateBoth(p.usage, q.usage, c.usage, horizon, cutoff);
    forall id | id in p.reservations && id !in c.reservations
      ensures Early(p.reservations[id], Max(horizon, cutoff))
    {
      if id in q.reservations { assert Early(q.reservations[id], cutoff); }
    }
  }

  lemma {:induction false} TruncateMirrored(l: Life, cutoff: int)
    requires Clean(l.disk) && Mirrored(l.g.ledger, l.disk, l.horizon)
    ensures var disk := Compacted(l.disk, cutoff, {});
      && Clean(disk) && Mirrored(l.g.ledger, disk, Max(l.horizon, cutoff))
      && forall id :: Lost(l.g.ledger, disk, id) ==> Lost(l.g.ledger, l.disk, id) || !Survives(l.disk, cutoff, {}, id)
  {
    var kept := {} + Recent(l.disk, cutoff);
    assert forall i :: 0 <= i < |l.disk| && l.disk[i].time >= cutoff ==> l.disk[i].entity in kept;
    OnlyReplays(l.disk, kept, cutoff);
    OnlyClean(l.disk, kept, cutoff);
    EarlierRemains(Replay(l.g.ledger).value.book, Replay(l.disk).value.book,
                   Replay(Compacted(l.disk, cutoff, {})).value.book, kept, l.horizon, cutoff);
  }

  lemma {:induction false} TruncateAlive(l: Life, cutoff: int)
    requires Alive(l)
    requires l.g.journalUp ==> forall id ::
               id in l.g.book.reservations && HasOpen(l.g.book.reservations[id]) ==> Survives(l.disk, cutoff, {}, id)
    ensures Alive(Truncate(l, cutoff))
  {
    TruncateMirrored(l, cutoff);
    var p, disk := Replay(l.g.ledger).value.book, Compacted(l.disk, cutoff, {});
    if l.g.journalUp {
      forall id | Lost(l.g.ledger, disk, id) ensures !HasOpen(p.reservations[id]) {
        AgreeOpen(p, l.g.book, id);
      }
    }
  }

  lemma {:induction false} CompactAlive(l: Life, order: seq<string>, now: nat, good: nat, cutoff: int)
    requires Alive(l) && Allowed(l, Compaction(order, now, good, cutoff))
    ensures Alive(Shortened(l, order, now, good, cutoff))
  {
    var m := Beats(l, order, now, good);
    BeatsSurvive(l, order, now, good, cutoff, "");
    if Compacts(l.g, m.g) {
      forall id | m.g.journalUp && id in m.g.book.reservations && HasOpen(m.g.book.reservations[id])
        ensures Survives(m.disk, cutoff, {}, id)
      {
        BeatsSurvive(l, order, now, good, cutoff, id);
      }
      TruncateAlive(m, cutoff);
    }
  }

  // ---------------------------------------------------------------- restart

  lemma {:induction false} ReconciledClean(disk: seq<Item<Event>>, order: seq<string>, now: int)
    requires Clean(disk) && Replay(disk).Some?
    ensures Clean(disk + ReconciledItems(order, now))
    decreases |order|
  {
    if order == [] {
      assert disk + ReconciledItems(order, now) == disk;
    } else {
      var past, last := order[..|order| - 1], order[|order| - 1];
      assert order == past + [last];
      ReconciledClean(disk, past, now);
      ReplayReconciled(disk, past, now);
      OneMoreReconciled(disk, order, past, last, now);
      EndedClean(disk + ReconciledItems(past, now), Item(now, last, Reconciled));
    }
  }

  lemma {:induction false} OneMoreReconciled(disk: seq<Item<Event>>, order: seq<string>, past: seq<string>,
                                             last: string, now: int)
    requires order == past + [last]
    ensures disk + ReconciledItems(order, now) == (disk + ReconciledItems(past, now)) + [Item(now, last, Reconciled)]
  {
    assert ReconciledItems(order, now) == ReconciledItems(past, now) + [Item(now, last, Reconciled)];
  }

  lemma {:induction false} EndedClean(disk: seq<Item<Event>>, item: Item<Event>)
    requires Clean(disk) && Replay(disk).Some? && Ends(item.payload)
    ensures Clean(disk + [item])
  {
    ProperAppend(disk, item);
    assert (disk + [item])[..|disk|] == disk;
    LawfulMore(disk, disk + [item]);
  }

  lemma {:induction false} RestartAlive(l: Life, order: seq<string>, now: nat, good: nat)
    requires Alive(l)
    ensures Alive(Restarted(l, order, now, good))
  {
    var g := l.g.(ledger := l.disk);
    ProperSound(l.disk);
    RestartRefines(g, order, now, good);
    ReconciledClean(l.disk, Written(order, good), now);
    var h := RestartStep(g, order, now, good);
    RemainsItself(Replay(h.ledger).value.book, l.horizon);
  }

  lemma {:induction false} RemainsItself(b: Book, horizon: int)
    ensures Remains(b, b, horizon)
  {}

  // ---------------------------------------------------------------- whole lifetimes

  lemma {:induction false} NextAlive(l: Life, act: Act)
    requires Alive(l) && Allowed(l, act)
    ensures Alive(Next(l, act))
  {
    match act
    case Compaction(order, now, good, cutoff) => CompactAlive(l, order, now, good, cutoff);
    case Do(op) =>
      if op.Restart? {
        RestartAlive(l, op.order, op.now, op.good);
      } else if op.Record? {
        StepInvariant(l.g, op);
        RecordOnward(l, Step(l.g, op), op.id, op.settlement, op.usage, op.now, op.okOpen, op.ok);
      } else {
        StepOnward(l, op);
      }
  }

  // ---------------------------------------------------------------- exactly when the disk stays replayable

  lemma {:induction false} StrayFails(b: Book, q: Replica, id: string, e: Event)
    requires Proper(b, id, e) && id in b.reservations && id !in q.book.reservations && !Ends(e)
    ensures ReplayEvent(q, id, e).None?
  {}

  lemma {:induction false} NoneForGood(log: seq<Item<Event>>, more: seq<Item<Event>>)
    requires Replay(log).None?
    ensures Replay(log + more).None?
    decreases |more|
  {
    if more == [] {
      assert log + more == log;
    } else {
      var past, last := more[..|more| - 1], more[|more| - 1];
      NoneForGood(log, past);
      assert (log + more)[..|log + past|] == log + past;
    }
  }

  lemma {:induction false} OneMoreFits(b: Book, log: seq<Item<Event>>, more: seq<Item<Event>>)
    requires OneMore(b, log, more) && |more| > |log|
    ensures log <= more && Fitting(b, more[|log|])
  {}

  lemma {:induction false} NewRecordFits(g: Gov, mid: Gov, h: Gov, id: string, i: string, usage: Reported, now: nat,
                                         okOpen: bool, ok: bool)
    requires Conserved(g.book) && id in g.book.reservations && ReportedInRange(usage) && i != ""
    requires mid == OpenStep(g, id, i, now, okOpen).0 && OpenStep(g, id, i, now, okOpen).1 == Done
    requires id in mid.book.reservations && i in mid.book.reservations[id].attempts
    requires h == SettleStep(mid, id, i, usage, now, ok).0 && |h.ledger| > |g.ledger|
    ensures Fitting(g.book, h.ledger[|g.ledger|])
  {
    OpenMore(g, id, i, now, okOpen);
    SettleMore(mid, id, i, usage, now, ok);
    if mid.ledger == g.ledger {
      SettleStepDown(mid, id, i, usage, now, ok);
    } else {
      OneMoreFits(g.book, g.ledger, mid.ledger);
      OneMoreIsPrefix(mid.book, mid.ledger, h.ledger);
    }
  }

  lemma {:induction false} RecordFits(g: Gov, h: Gov, id: string, raw: string, usage: Reported, now: nat,
                                      okOpen: bool, ok: bool)
    requires Conserved(g.book) && ReportedInRange(usage) && h == RecordStep(g, id, raw, usage, now, okOpen, ok).0
    requires |h.ledger| > |g.ledger|
    ensures Fitting(g.book, h.ledger[|g.ledger|])
  {
    var i := Glob.Trim(raw);
    if i in g.book.reservations[id].attempts {
      SettleMore(g, id, i, usage, now, ok);
      OneMoreFits(g.book, g.ledger, h.ledger);
    } else {
      var (mid, outcome) := OpenStep(g, id, i, now, okOpen);
      OpenStepRunning(g, id, i, now, okOpen);
      if outcome == Done {
        NewRecordFits(g, mid, h, id, i, usage, now, okOpen, ok);
      } else {
        OpenMore(g, id, i, now, okOpen);
        OneMoreFits(g.book, g.ledger, h.ledger);
      }
    }
  }

  /** The first entry an operation writes belongs into the manager's ledger. */
  lemma {:induction false} FirstFits(g: Gov, h: Gov, op: Op)
    requires Conserved(g.book) && Possible(g, op) && !op.Restart? && h == Step(g, op) && |h.ledger| > |g.ledger|
    ensures Fitting(g.book, h.ledger[|g.ledger|])
  {
    if op.Record? {
      RecordFits(g, h, op.id, op.settlement, op.usage, op.now, op.okOpen, op.ok);
    } else {
      SimpleMore(g, op);
      OneMoreFits(g.book, g.ledger, h.ledger);
    }
  }

  lemma {:induction false} StrayIsFatal(l: Life, h: Gov)
    requires Invariant(l.g) && l.g.journalUp && Strays(l, h) && Fitting(l.g.book, h.ledger[|l.g.ledger|])
    ensures Replay(Onward(l, h).disk).None?
  {
    var n := |l.g.ledger|;
    LostIsHeld(l, h.ledger[n].entity);
    assert Added(h.ledger, n) == [h.ledger[n]] + h.ledger[n + 1..];
    StrayDisk(l.g.book, l.disk, h.ledger[n], h.ledger[n + 1..], Added(h.ledger, n));
  }

  lemma {:induction false} LostIsHeld(l: Life, id: string)
    requires Invariant(l.g) && l.g.journalUp && Lost(l.g.ledger, l.disk, id)
    ensures id in l.g.book.reservations
  {}

  lemma {:induction false} StrayDisk(b: Book, disk: seq<Item<Event>>, item: Item<Event>, rest: seq<Item<Event>>,
                                     more: seq<Item<Event>>)
    requires Replay(disk).Some? && item.entity !in Replay(disk).value.book.reservations && !Ends(item.payload)
    requires Proper(b, item.entity, item.payload) && item.entity in b.reservations && more == [item] + rest
    ensures Replay(disk + more).None?
  {
    ReplayAppend(disk, item);
    StrayFails(b, Replay(disk).value, item.entity, item.payload);
    NoneForGood(disk + [item], rest);
    assert disk + more == (disk + [item]) + rest;
  }

  /** At any moment of a lifetime, the disk can be replayed after an operation if and only if the
      operation does not go on with a reservation that compaction has taken off the disk. */
  lemma {:induction false} OperationReplaysIff(l: Life, op: Op)
    requires Alive(l) && Possible(l.g, op) && !op.Restart?
    ensures Replay(Onward(l, Step(l.g, op)).disk).Some? <==> !Strays(l, Step(l.g, op))
  {
    if Strays(l, Step(l.g, op)) {
      FirstFits(l.g, Step(l.g, op), op);
      StepContinues(l.g, op);
      StrayIsFatal(l, Step(l.g, op));
    } else {
      NextAlive(l, Do(op));
    }
  }

  // ---------------------------------------------------------------- from the first start on

  function Born(cfg: Config): Life { Life(Initial(cfg), [], 0) }

  ghost predicate IsLife(cfg: Config, ls: seq<Life>, acts: seq<Act>) {
    && |ls| == |acts| + 1 && ls[0] == Born(cfg)
    && forall i :: 0 <= i < |acts| ==> Allowed(ls[i], acts[i]) && ls[i + 1] == Next(ls[i], acts[i])
  }

  lemma {:induction false} LifeAlive(cfg: Config, ls: seq<Life>, acts: seq<Act>, n: nat)
    requires IsLife(cfg, ls, acts) && n <= |acts|
    ensures Alive(ls[n])
  {
    if n == 0 {
      InitialInvariant(cfg);
    } else {
      LifeAlive(cfg, ls, acts, n - 1);
      NextAlive(ls[n - 1], acts[n - 1]);
    }
  }

  /** Replay refines live accounting, compactions included.  At any moment of any lifetime at
      which the journal is up, or a start has just failed, the next start succeeds from the
      compacted disk, closes everything, and shows the live usage of every window from the last
      cutoff on. */
  lemma {:induction false} LifetimeRestart(cfg: Config, ls: seq<Life>, acts: seq<Act>, n: nat, order: seq<string>,
                                           now: nat, good: nat, s: Slot)
    requires IsLife(cfg, ls, acts) && n <= |acts| && (ls[n].g.journalUp || !ls[n].g.running)
    requires Replay(ls[n].disk).Some? ==> Enumerates(order, Replay(ls[n].disk).value.book.reservations.Keys)
    requires good >= |order| && s.window >= ls[n].horizon
    ensures var live, next := ls[n].g, RestartStep(ls[n].g.(ledger := ls[n].disk), order, now, good);
      && next.running && next.book.reservations == map[]
      && At(next.book.usage, s) == At(live.book.usage, s).(reservedTokens := 0, reservedCost := 0)
  {
    LifeAlive(cfg, ls, acts, n);
    DiskRestart(ls[n], order, now, good, s);
  }

  lemma {:induction false} DiskRestart(l: Life, order: seq<string>, now: nat, good: nat, s: Slot)
    requires Alive(l) && Refines(l.g) && good >= |order|
    requires Enumerates(order, Replay(l.disk).value.book.reservations.Keys)
    requires s.window >= l.horizon
    ensures var next := RestartStep(l.g.(ledger := l.disk), order, now, good);
      && next.running && next.book.reservations == map[]
      && At(next.book.usage, s) == At(l.g.book.usage, s).(reservedTokens := 0, reservedCost := 0)
  {
    var q := Replay(l.disk).value.book;
    ProperSound(l.disk);
    DropEachKeys(q, order);
    DropEachCounts(q, order, s);
    DropEachConserves(q, order);
    EmptyBookHoldsNothing(DropEach(q, order), s);
  }
}
