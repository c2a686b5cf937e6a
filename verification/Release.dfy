/** Policy releases: a two-phase commit between the release journal and the configuration,
    with crash, replay, reconciliation and compaction.
    A policy is its content without the revision field; a record's stamp is the content that
    identifies the operation (revision, stage, canary share, creation time, actor). */
module Release {
  import opened Options
  import opened JournalLog

  datatype Record = Record(policy: string, stamp: string)

  datatype Intent = Intent(rollback: bool, record: Record, reason: string)

  datatype Event =
    | DraftSaved(policy: string)
    | Prepared(intent: Intent)
    | Published(record: Record)
    | RolledBack(record: Record)
    | Aborted(intent: Intent)

  /** The digest of a policy, as an injective function of it. */
  function RevisionOf(policy: string): string { "policy-" + policy }

  function OperationOf(r: Record): string { "release-" + r.stamp }

  lemma {:induction false} RevisionsAreNotOperations(policy: string, r: Record)
    ensures RevisionOf(policy) != OperationOf(r)
    ensures forall other :: RevisionOf(policy) == RevisionOf(other) ==> policy == other
  {
    assert RevisionOf(policy)[0] == 'p' && OperationOf(r)[0] == 'r';
    forall other | RevisionOf(policy) == RevisionOf(other) ensures policy == other {
      assert RevisionOf(policy)[7..] == policy && RevisionOf(other)[7..] == other;
    }
  }

  const LIMIT := 50

  datatype Releases = Releases(draft: Option<string>, history: seq<Record>, pending: map<string, Intent>)

  const NONE := Releases(None, [], map[])

  /** The records hold one of r's operation. */
  predicate Known(records: seq<Record>, r: Record) {
    exists i :: 0 <= i < |records| && OperationOf(records[i]) == OperationOf(r)
  }

  /** An operation is recorded once; only the latest are kept. */
  function Remembered(history: seq<Record>, r: Record): seq<Record> {
    if Known(history, r) then history
    else if |history| + 1 > LIMIT then history[|history| + 1 - LIMIT..] + [r]
    else history + [r]
  }

  function Applied(s: Releases, r: Record): Releases {
    Releases(None, Remembered(s.history, r), s.pending - {OperationOf(r)})
  }

  function ReplayEvent(s: Releases, e: Event): Releases {
    match e
    case DraftSaved(policy) => s.(draft := Some(policy))
    case Prepared(intent) => s.(pending := s.pending[OperationOf(intent.record) := intent])
    case Published(r) => Applied(s, r)
    case RolledBack(r) => Applied(s, r)
    case Aborted(intent) => s.(pending := s.pending - {OperationOf(intent.record)})
  }

  function Replay(log: seq<Item<Event>>): Releases {
    if log == [] then NONE else ReplayEvent(Replay(log[..|log| - 1]), log[|log| - 1].payload)
  }

  lemma {:induction false} ReplayAppend(log: seq<Item<Event>>, item: Item<Event>)
    ensures Replay(log + [item]) == ReplayEvent(Replay(log), item.payload)
  {
    assert (log + [item])[..|log|] == log;
  }

  /** How the manager files its events: preparations and aborts under the operation, results
      under the policy revision or, from reconciliation, under the operation. */
  predicate WellFiled(item: Item<Event>) {
    match item.payload
    case DraftSaved(policy) => item.entity == RevisionOf(policy)
    case Prepared(intent) => item.entity == OperationOf(intent.record)
    case Published(r) => item.entity == RevisionOf(r.policy) || item.entity == OperationOf(r)
    case RolledBack(r) => item.entity == RevisionOf(r.policy) || item.entity == OperationOf(r)
    case Aborted(intent) => item.entity == OperationOf(intent.record)
  }

  ghost predicate AllFiled(log: seq<Item<Event>>) { forall i :: 0 <= i < |log| ==> WellFiled(log[i]) }

  // ---------------------------------------------------------------- the manager and the configuration

  /** What survives a crash. */
  datatype Durable = Durable(journal: seq<Item<Event>>, config: string)

  /** The release manager beside the stored configuration.  Both journal and configuration
      survive a crash, and the trail lists every state of the two that a crash could find. */
  class Manager {
    var releases: Releases
    var journal: seq<Item<Event>>
    var config: string
    ghost var trail: seq<Durable>

    /** Memory never runs ahead of the journal: it is what a replay would give; and every
        event is filed as compaction needs it. */
    ghost predicate Valid() reads this { releases == Replay(journal) && Stored() }

    ghost predicate Stored() reads this {
      AllFiled(journal) && trail != [] && trail[|trail| - 1] == Durable(journal, config)
    }

    ghost function Now(): Durable reads this { Durable(journal, config) }

    constructor (policy: string)
      ensures Valid() && journal == [] && config == policy
    {
      releases, journal, config := NONE, [], policy;
      trail := [Durable([], policy)];
    }

    /** A process started after a crash, before it has read anything. */
    constructor After(d: Durable)
      requires AllFiled(d.journal)
      ensures Stored() && Now() == d
    {
      releases, journal, config := NONE, d.journal, d.config;
      trail := [d];
    }

    method Append(now: int, entity: string, e: Event, ok: bool)
      requires Valid() && WellFiled(Item(now, entity, e))
      modifies this
      ensures config == old(config) && releases == old(releases)
      ensures journal == if ok then old(journal) + [Item(now, entity, e)] else old(journal)
      ensures Replay(journal) == if ok then ReplayEvent(releases, e) else releases
      ensures Stored() && Extends(old(trail), trail, Now())
    {
      ReplayAppend(journal, Item(now, entity, e));
      if ok {
        journal := journal + [Item(now, entity, e)];
        trail := trail + [Durable(journal, config)];
      }
    }

    method WriteConfig(policy: string, ok: bool)
      requires Valid()
      modifies this`config, this`trail
      ensures Valid() && config == (if ok then policy else old(config))
      ensures Extends(old(trail), trail, Now())
    {
      if ok {
        config := policy;
        trail := trail + [Durable(journal, config)];
      }
    }

    method PrepareCommit(r: Record, rollback: bool, now: int, ok: bool) returns (done: bool)
      requires Valid()
      modifies this
      ensures Valid() && config == old(config)
      ensures done <==> OperationOf(r) in old(releases.pending) || ok
      ensures done && OperationOf(r) !in old(releases.pending) ==>
                releases == old(releases).(pending := old(releases.pending)[OperationOf(r) := Intent(rollback, r, "")])
      ensures done ==> OperationOf(r) in releases.pending
      ensures !done || OperationOf(r) in old(releases.pending) ==> releases == old(releases) && journal == old(journal)
      ensures done && OperationOf(r) !in old(releases.pending) ==>
                journal == old(journal) + [Item(now, OperationOf(r), Prepared(Intent(rollback, r, "")))]
      ensures Extends(old(trail), trail, Now())
    {
      if OperationOf(r) in releases.pending { return true; }
      var intent := Intent(rollback, r, "");
      Append(now, OperationOf(r), Prepared(intent), ok);
      if !ok { return false; }
      releases := releases.(pending := releases.pending[OperationOf(r) := intent]);
      done := true;
    }

    /** Puts a result into the bounded history, and takes the operation off the pending ones. */
    method AppendHistory(r: Record)
      modifies this`releases
      ensures releases == Applied(old(releases), r) && Recorded(old(releases.history), releases.history, r)
    {
      var history := releases.history;
      releases := Releases(None, history, releases.pending - {OperationOf(r)});
      for i := 0 to |history|
        invariant forall j :: 0 <= j < i ==> OperationOf(history[j]) != OperationOf(r)
      {
        if OperationOf(history[i]) == OperationOf(r) { return; }
      }
      history := history + [r];
      if |history| > LIMIT { history := history[|history| - LIMIT..]; }
      assert history[|history| - 1] == r;
      releases := releases.(history := history);
    }

    /** The latest release of a policy revision, from which a rollback is made. */
    method FindRevision(revision: string) returns (found: Option<Record>)
      ensures found.None? ==> forall r :: r in releases.history ==> RevisionOf(r.policy) != revision
      ensures found.Some? ==> RevisionOf(found.value.policy) == revision && LatestOf(releases.history, found.value)
    {
      var history := releases.history;
      var i := |history|;
      while i > 0
        invariant 0 <= i <= |history|
        invariant forall j :: i <= j < |history| ==> RevisionOf(history[j].policy) != revision
      {
        i := i - 1;
        if RevisionOf(history[i].policy) == revision {
          RevisionsAreNotOperations(history[i].policy, history[i]);
          return Some(history[i]);
        }
      }
      found := None;
    }

    method FinalizeCommit(r: Record, rollback: bool, now: int, ok: bool)
      requires Valid()
      modifies this
      ensures Valid() && config == old(config)
      ensures releases == if ok then Applied(old(releases), r) else old(releases)
      ensures ok ==> Recorded(old(releases.history), releases.history, r)
      ensures journal == if ok then old(journal) + [Item(now, RevisionOf(r.policy),
                                                         if rollback then RolledBack(r) else Published(r))]
                         else old(journal)
      ensures Extends(old(trail), trail, Now())
    {
      Append(now, RevisionOf(r.policy), if rollback then RolledBack(r) else Published(r), ok);
      if ok { AppendHistory(r); }
    }

    method AbortCommit(r: Record, rollback: bool, reason: string, now: int, ok: bool)
      requires Valid()
      modifies this
      ensures Valid() && config == old(config)
      ensures releases
           == if ok then old(releases).(pending := old(releases.pending) - {OperationOf(r)}) else old(releases)
      ensures journal == if ok then old(journal) + [Item(now, OperationOf(r), Aborted(Intent(rollback, r, reason)))]
                         else old(journal)
      ensures Extends(old(trail), trail, Now())
    {
      Append(now, OperationOf(r), Aborted(Intent(rollback, r, reason)), ok);
      if ok { releases := releases.(pending := releases.pending - {OperationOf(r)}); }
    }

    /** The order of steps in publish and rollback: prepare, write the configuration, finalize;
        a failed write aborts, a failed finalization is compensated.  The flags say which of
        the writes succeed.  Every state the disk goes through is accounted for. */
    method Publish(r: Record, rollback: bool, now: int, okPrepare: bool, okWrite: bool, okFinalize: bool,
                   okRestore: bool, okAbort: bool) returns (published: bool)
      requires Valid()
      modifies this
      ensures Valid()
      ensures published ==> config == r.policy && OperationOf(r) !in releases.pending && releases.draft == None
      ensures published ==> Recorded(old(releases.history), releases.history, r)
      ensures published <==> (okPrepare || OperationOf(r) in old(releases.pending)) && okWrite && okFinalize
      ensures !published && (!okWrite || okRestore) ==> config == old(config)
      ensures !published && config == r.policy != old(config) ==>
                OperationOf(r) in releases.pending && releases.pending[OperationOf(r)].record.stamp == r.stamp
      ensures old(trail) <= trail
      ensures Untried(old(Now()), r) ==> AllTraced(old(Now()), trail, |old(trail)| - 1, r, rollback)
    {
      ghost var start, from, fresh_ := Now(), |trail| - 1, Untried(Now(), r);
      if fresh_ { StartTraced(start, r, rollback); }
      var done := PrepareCommit(r, rollback, now, okPrepare);
      if !done { return false; }
      PendingFiled(journal);
      SameStamp(releases.pending[OperationOf(r)].record, r);
      if fresh_ { PreparedBetween(start, Now(), r, rollback, now); }
      published := Carry(r, rollback, now, okWrite, okFinalize, okRestore, okAbort, start, from, fresh_);
    }

    /** The steps after the preparation. */
    method Carry(r: Record, rollback: bool, now: int, okWrite: bool, okFinalize: bool, okRestore: bool, okAbort: bool,
                 ghost start: Durable, ghost from: nat, ghost fresh_: bool) returns (published: bool)
      requires Valid() && OperationOf(r) in releases.pending && config == start.config && from < |trail|
      requires fresh_ ==> Between(start, Now(), r, rollback) && AllTraced(start, trail, from, r, rollback)
      modifies this
      ensures Valid() && old(trail) <= trail
      ensures published ==> config == r.policy && OperationOf(r) !in releases.pending && releases.draft == None
      ensures published ==> Recorded(old(releases.history), releases.history, r)
      ensures published <==> okWrite && okFinalize
      ensures !published && (!okWrite || okRestore) ==> config == old(config)
      ensures !published && config == r.policy != old(config) ==>
                OperationOf(r) in releases.pending
                && releases.pending[OperationOf(r)] == old(releases.pending[OperationOf(r)])
      ensures fresh_ ==> AllTraced(start, trail, from, r, rollback)
    {
      var previous := config;
      WriteConfig(r.policy, okWrite);
      if fresh_ { BetweenTraced(start, Now(), r, rollback); }
      if !okWrite {
        Undo(r, rollback, "config_update_failed", now, okAbort, start, from, fresh_);
        return false;
      }
      published := Settle(r, rollback, now, okFinalize, start, from, fresh_);
      if !published { Compensate(r, rollback, previous, now, okRestore, okAbort, start, from, fresh_); }
    }

    /** The previous configuration is put back after a failed finalization. */
    method Compensate(r: Record, rollback: bool, previous: string, now: int, okRestore: bool, okAbort: bool,
                      ghost start: Durable, ghost from: nat, ghost fresh_: bool)
      requires Valid() && config == r.policy && previous == start.config && from < |trail|
      requires fresh_ ==> Between(start, Now(), r, rollback) && AllTraced(start, trail, from, r, rollback)
      modifies this
      ensures Valid() && old(trail) <= trail && config == if okRestore then previous else r.policy
      ensures !okRestore ==> releases == old(releases)
      ensures fresh_ ==> AllTraced(start, trail, from, r, rollback)
    {
      WriteConfig(previous, okRestore);
      if fresh_ { BetweenTraced(start, Now(), r, rollback); }
      if okRestore { Undo(r, rollback, "audit_failed_compensated", now, okAbort, start, from, fresh_); }
    }

    /** The finalization, once the new policy is active. */
    method Settle(r: Record, rollback: bool, now: int, ok: bool, ghost start: Durable, ghost from: nat,
                  ghost fresh_: bool)
      returns (published: bool)
      requires Valid() && config == r.policy && from < |trail|
      requires fresh_ ==> Between(start, Now(), r, rollback) && AllTraced(start, trail, from, r, rollback)
      modifies this
      ensures Valid() && old(trail) <= trail && config == old(config) && published == ok
      ensures ok ==> OperationOf(r) !in releases.pending && releases.draft == None
      ensures ok ==> Recorded(old(releases.history), releases.history, r)
      ensures !ok ==> releases == old(releases) && Now() == old(Now())
      ensures fresh_ ==> AllTraced(start, trail, from, r, rollback)
    {
      ghost var written := Now();
      FinalizeCommit(r, rollback, now, ok);
      if fresh_ { FinalizedTraced(start, written, Now(), r, rollback, now, ok); }
      published := ok;
    }

    method Undo(r: Record, rollback: bool, reason: string, now: int, ok: bool, ghost start: Durable, ghost from: nat,
                ghost fresh_: bool)
      requires Valid() && config == start.config && from < |trail|
      requires fresh_ ==> Between(start, Now(), r, rollback) && AllTraced(start, trail, from, r, rollback)
      modifies this
      ensures Valid() && old(trail) <= trail && config == old(config)
      ensures !ok ==> releases == old(releases)
      ensures fresh_ ==> AllTraced(start, trail, from, r, rollback)
    {
      ghost var before := Now();
      AbortCommit(r, rollback, reason, now, ok);
      if fresh_ { AbortedTraced(start, before, Now(), r, rollback, reason, now, ok); }
    }

    /** A crash loses the memory; the next process replays the journal. */
    method Restart()
      requires Stored()
      modifies this`releases
      ensures Valid()
    {
      releases := NONE;
      var entries := journal;
      for i := 0 to |entries|
        invariant releases == Replay(entries[..i])
      {
        assert entries[..i + 1] == entries[..i] + [entries[i]];
        ReplayAppend(entries[..i], entries[i]);
        releases := ReplayEvent(releases, entries[i].payload);
      }
      assert entries[..|entries|] == entries;
    }

    method ResolveOne(op: string, now: int, ok: bool)
      requires Valid() && op in releases.pending && OperationOf(releases.pending[op].record) == op
      modifies this
      ensures Valid() && config == old(config)
      ensures !ok ==> journal == old(journal) && releases == old(releases)
      ensures ok ==> journal == old(journal) + [Resolution(old(releases.pending)[op], config, now)]
      ensures ok ==> releases.pending == old(releases.pending) - {op}
    {
      var intent := releases.pending[op];
      ResolutionItem(intent, config, now);
      if RevisionOf(config) == RevisionOf(intent.record.policy) {
        Append(now, op, if intent.rollback then RolledBack(intent.record) else Published(intent.record), ok);
        if ok { AppendHistory(intent.record); }
      } else {
        Append(now, op, Aborted(intent.(reason := "active_revision_mismatch")), ok);
        if ok { releases := releases.(pending := releases.pending - {op}); }
      }
    }

    /** The intents left pending are closed one by one, in the arbitrary order of a map
        iteration, until all are or an append fails; good is how many appends succeed. */
    method Reconcile(now: int, good: nat) returns (done: bool, ghost closed: seq<Item<Event>>)
      requires Valid()
      modifies this
      ensures Valid() && config == old(config) && journal == old(journal) + closed
      ensures Closes(closed, old(releases.pending), releases.pending, config, now)
      ensures done <==> releases.pending == map[]
      ensures done <==> |old(releases.pending)| <= good
    {
      closed := [];
      ghost var before := releases.pending;
      PendingFiled(journal);
      NothingClosed(journal, before, config, now);
      var left := good;
      while releases.pending != map[]
        invariant Valid() && config == old(config) && |releases.pending| + good == |before| + left
        invariant Reconciling(old(journal), journal, closed, before, releases.pending, config, now)
        decreases |releases.pending|
      {
        var op :| op in releases.pending;
        if left == 0 {
          PartStep(releases.pending, before, op);
          ResolveOne(op, now, false);
          return false, closed;
        }
        closed := CloseOne(op, now, old(journal), before, closed);
        left := left - 1;
      }
      done := true;
    }

    method CloseOne(op: string, now: int, ghost start: seq<Item<Event>>, ghost before: map<string, Intent>,
                    ghost closed: seq<Item<Event>>)
      returns (ghost more: seq<Item<Event>>)
      requires Valid() && op in releases.pending
      requires Reconciling(start, journal, closed, before, releases.pending, config, now)
      modifies this
      ensures Valid() && config == old(config) && |releases.pending| == |old(releases.pending)| - 1
      ensures Reconciling(start, journal, more, before, releases.pending, config, now)
    {
      PartStep(releases.pending, before, op);
      ClosesOneMore(closed, before, releases.pending, op, config, now);
      more := closed + [Resolution(before[op], config, now)];
      assert start + more == start + closed + [Resolution(before[op], config, now)];
      ResolveOne(op, now, true);
    }
  }

  /** A new process after a crash: replay, then reconciliation with the stored configuration. */
  method Recover(d: Durable, later: int, good: nat) returns (m: Manager, done: bool, ghost closed: seq<Item<Event>>)
    requires AllFiled(d.journal)
    ensures m.Valid() && m.Now() == Durable(d.journal + closed, d.config)
    ensures Closes(closed, Replay(d.journal).pending, m.releases.pending, d.config, later)
    ensures done <==> m.releases.pending == map[]
    ensures done <==> |Replay(d.journal).pending| <= good
  {
    m := new Manager.After(d);
    m.Restart();
    done, closed := m.Reconcile(later, good);
  }

  /** The result is in the history, as its last entry unless the operation was there before. */
  predicate Recorded(before: seq<Record>, after: seq<Record>, r: Record) {
    Known(after, r) && (!Known(before, r) ==> after != [] && after[|after| - 1] == r)
  }

  /** No later entry of the history is of the same policy. */
  predicate LatestOf(history: seq<Record>, r: Record) {
    exists i :: 0 <= i < |history| && history[i] == r && forall j :: i < j < |history| ==> history[j].policy != r.policy
  }

  /** The trail grew by the present state, or not at all. */
  ghost predicate Extends(before: seq<Durable>, after: seq<Durable>, now: Durable) {
    after == before || after == before + [now]
  }

  /** The journal has grown by the items that close what is no longer left. */
  ghost predicate Reconciling(start: seq<Item<Event>>, journal: seq<Item<Event>>, closed: seq<Item<Event>>,
                              before: map<string, Intent>, left: map<string, Intent>, config: string, now: int)
  {
    journal == start + closed && IsPart(left, before) && IsPart(before, before) && Closes(closed, before, left, config,
                                                                                          now)
  }

  lemma {:induction false} NothingClosed(journal: seq<Item<Event>>, before: map<string, Intent>, config: string,
                                         now: int)
    requires forall op :: op in before ==> OperationOf(before[op].record) == op
    ensures Reconciling(journal, journal, [], before, before, config, now)
  {
    assert journal + [] == journal;
  }

  /** What is left of the intents pending at first, each filed under its operation. */
  ghost predicate IsPart(left: map<string, Intent>, before: map<string, Intent>) {
    forall op :: op in left ==> op in before && left[op] == before[op] && OperationOf(left[op].record) == op
  }

  lemma {:induction false} PartStep(left: map<string, Intent>, before: map<string, Intent>, op: string)
    requires IsPart(left, before) && op in left
    ensures IsPart(left - {op}, before) && |left - {op}| == |left| - 1
    ensures op in before && left[op] == before[op] && OperationOf(left[op].record) == op
  {
    assert (left - {op}).Keys == left.Keys - {op};
    assert |left.Keys - {op}| == |left.Keys| - 1;
    assert |left| == |left.Keys| && |left - {op}| == |(left - {op}).Keys|;
  }

  /** The items close exactly the intents that are no longer left, each by one entry. */
  ghost predicate Closes(items: seq<Item<Event>>, before: map<string, Intent>, left: map<string, Intent>,
                         config: string, now: int) {
    && (forall op :: op in before && op !in left ==> Resolution(before[op], config, now) in items)
    && (forall i :: 0 <= i < |items| ==> IsClosing(items[i], before, left, config, now))
    && Apart(items)
  }

  ghost predicate IsClosing(item: Item<Event>, before: map<string, Intent>, left: map<string, Intent>, config: string,
                            now: int) {
    exists op :: op in before && op !in left && item == Resolution(before[op], config, now)
  }

  /** No two items are about the same entity. */
  predicate Apart(items: seq<Item<Event>>) {
    forall i, j :: 0 <= i < j < |items| ==> items[i].entity != items[j].entity
  }

  lemma {:induction false} StillClosing(item: Item<Event>, before: map<string, Intent>, left: map<string, Intent>,
                                        op: string,
                                        config: string, now: int)
    requires IsClosing(item, before, left, config, now) && op in left && IsPart(before, before)
    ensures IsClosing(item, before, left - {op}, config, now) && item.entity != op
  {
    var o :| o in before && o !in left && item == Resolution(before[o], config, now);
    assert o !in left - {op};
  }

  lemma {:induction false} ClosesOneMore(items: seq<Item<Event>>, before: map<string, Intent>,
                                         left: map<string, Intent>,
                                         op: string, config: string, now: int)
    requires Closes(items, before, left, config, now) && op in before && op in left && IsPart(before, before)
    ensures Closes(items + [Resolution(before[op], config, now)], before, left - {op}, config, now)
  {
    var item := Resolution(before[op], config, now);
    forall i | 0 <= i < |items|
      ensures IsClosing(items[i], before, left - {op}, config, now) && items[i].entity != op
    {
      StillClosing(items[i], before, left, op, config, now);
    }
    assert op !in left - {op};
    assert IsClosing(item, before, left - {op}, config, now);
  }

  /** How reconciliation closes an intent: as applied exactly when the active policy is the
      intended one, as aborted otherwise. */
  function Resolution(intent: Intent, config: string, now: int): Item<Event> {
    Item(now, OperationOf(intent.record),
         if config == intent.record.policy
         then (if intent.rollback then RolledBack(intent.record) else Published(intent.record))
         else Aborted(intent.(reason := "active_revision_mismatch")))
  }

  lemma {:induction false} ResolutionItem(intent: Intent, config: string, now: int)
    ensures RevisionOf(config) == RevisionOf(intent.record.policy) <==> config == intent.record.policy
  {
    RevisionsAreNotOperations(config, intent.record);
  }

  /** Pending intents are filed under their own operation. */
  lemma {:induction false} PendingFiled(log: seq<Item<Event>>)
    ensures forall op :: op in Replay(log).pending ==> OperationOf(Replay(log).pending[op].record) == op
  {
    if log != [] { PendingFiled(log[..|log| - 1]); }
  }

  lemma {:induction false} SameStamp(r: Record, q: Record)
    requires OperationOf(r) == OperationOf(q)
    ensures r.stamp == q.stamp
  {
    assert OperationOf(r)[8..] == r.stamp && OperationOf(q)[8..] == q.stamp;
  }

  // ---------------------------------------------------------------- crashes

  predicate IsResult(e: Event) { e.Published? || e.RolledBack? }

  /** The journal records the operation as applied. */
  ghost predicate Released(log: seq<Item<Event>>, op: string) {
    exists i :: 0 <= i < |log| && IsResult(log[i].payload) && OperationOf(log[i].payload.record) == op
  }

  lemma {:induction false} ReleasedAppend(log: seq<Item<Event>>, item: Item<Event>, op: string)
    ensures Released(log + [item], op)
       <==> Released(log, op) || (IsResult(item.payload) && OperationOf(item.payload.record) == op)
  {
    var longer := log + [item];
    if Released(log, op) {
      var i :| 0 <= i < |log| && IsResult(log[i].payload) && OperationOf(log[i].payload.record) == op;
      assert longer[i] == log[i];
    }
    assert longer[|log|] == item;
  }

  /** The operation has left no mark yet. */
  ghost predicate Untried(d: Durable, r: Record) {
    AllFiled(d.journal) && OperationOf(r) !in Replay(d.journal).pending && !Released(d.journal, OperationOf(r))
  }

  ghost predicate OthersSame(start: Durable, d: Durable, op: string) {
    Replay(d.journal).pending - {op} == Replay(start.journal).pending - {op}
  }

  /** What a crash may find while r is being published: nothing is recorded as applied unless
      it is active, nothing becomes active unless it is recorded or pending, and whoever else
      was pending still is. */
  ghost predicate Traced(start: Durable, d: Durable, r: Record, rollback: bool) {
    var op := OperationOf(r);
    && AllFiled(d.journal) && OthersSame(start, d, op)
    && (op in Replay(d.journal).pending ==>
          Replay(d.journal).pending[op] == Intent(rollback, r, "") && !Released(d.journal, op))
    && (Released(d.journal, op) ==> d.config == r.policy)
    && (d.config != start.config ==> d.config == r.policy && (op in Replay(d.journal).pending || Released(d.journal,
                                                                                                          op)))
  }

  ghost predicate AllTraced(start: Durable, trail: seq<Durable>, from: nat, r: Record, rollback: bool) {
    forall k :: from <= k < |trail| ==> Traced(start, trail[k], r, rollback)
  }

  /** Prepared, and neither finalized nor aborted. */
  ghost predicate Between(start: Durable, d: Durable, r: Record, rollback: bool) {
    var op := OperationOf(r);
    && AllFiled(d.journal) && OthersSame(start, d, op) && !Released(d.journal, op)
    && op in Replay(d.journal).pending && Replay(d.journal).pending[op] == Intent(rollback, r, "")
  }

  lemma {:induction false} StartTraced(start: Durable, r: Record, rollback: bool)
    requires Untried(start, r)
    ensures Traced(start, start, r, rollback)
  {}

  lemma {:induction false} BetweenTraced(start: Durable, d: Durable, r: Record, rollback: bool)
    requires Between(start, d, r, rollback) && (d.config == start.config || d.config == r.policy)
    ensures Traced(start, d, r, rollback)
  {}

  lemma {:induction false} PreparedBetween(start: Durable, d: Durable, r: Record, rollback: bool, now: int)
    requires Untried(start, r) && d.config == start.config
    requires d.journal == start.journal + [Item(now, OperationOf(r), Prepared(Intent(rollback, r, "")))]
    ensures Between(start, d, r, rollback) && Traced(start, d, r, rollback)
  {
    var item := Item(now, OperationOf(r), Prepared(Intent(rollback, r, "")));
    ReplayAppend(start.journal, item);
    ReleasedAppend(start.journal, item, OperationOf(r));
  }

  lemma {:induction false} FinalizedTraced(start: Durable, before: Durable, d: Durable, r: Record, rollback: bool,
                                           now: int, ok: bool)
    requires Between(start, before, r, rollback) && before.config == d.config == r.policy
    requires d.journal == if ok
                        then before.journal + [Item(now, RevisionOf(r.policy),
                                                    if rollback then RolledBack(r) else Published(r))]
                          else before.journal
    ensures Traced(start, d, r, rollback)
    ensures !ok ==> Between(start, d, r, rollback)
  {
    var item := Item(now, RevisionOf(r.policy), if rollback then RolledBack(r) else Published(r));
    ReplayAppend(before.journal, item);
    ReleasedAppend(before.journal, item, OperationOf(r));
  }

  lemma {:induction false} AbortedTraced(start: Durable, before: Durable, d: Durable, r: Record, rollback: bool,
                                         reason: string, now: int, ok: bool)
    requires Between(start, before, r, rollback) && before.config == d.config == start.config
    requires d.journal == if ok
                        then before.journal + [Item(now, OperationOf(r), Aborted(Intent(rollback, r, reason)))]
                        else before.journal
    ensures Traced(start, d, r, rollback)
  {
    var item := Item(now, OperationOf(r), Aborted(Intent(rollback, r, reason)));
    ReplayAppend(before.journal, item);
    ReleasedAppend(before.journal, item, OperationOf(r));
  }

  lemma {:induction false} ClosedPending(log: seq<Item<Event>>, items: seq<Item<Event>>, op: string)
    requires forall i :: 0 <= i < |items| ==> !items[i].payload.Prepared?
    ensures op in Replay(log + items).pending <==>
              op in Replay(log).pending && forall i :: 0 <= i < |items| ==> Concerns(items[i].payload) != Some(op)
  {
    if items == [] {
      assert log + items == log;
    } else {
      var n := |items| - 1;
      ClosedPending(log, items[..n], op);
      assert log + items == log + items[..n] + [items[n]];
      PendingStep(log + items[..n], items[n], op);
    }
  }

  lemma {:induction false} ReleasedMore(log: seq<Item<Event>>, items: seq<Item<Event>>, op: string)
    ensures Released(log + items, op) <==> Released(log, op) || Released(items, op)
  {
    var all := log + items;
    if Released(log, op) {
      var i :| 0 <= i < |log| && IsResult(log[i].payload) && OperationOf(log[i].payload.record) == op;
      assert all[i] == log[i];
    }
    if Released(items, op) {
      var i :| 0 <= i < |items| && IsResult(items[i].payload) && OperationOf(items[i].payload.record) == op;
      assert all[|log| + i] == items[i];
    }
  }

  /** What reconciliation says of one operation: applied exactly when it was pending with the
      active policy. */
  lemma {:induction false} ClosedResult(items: seq<Item<Event>>, before: map<string, Intent>, config: string,
                                        later: int, op: string)
    requires Closes(items, before, map[], config, later) && IsPart(before, before)
    ensures Released(items, op) <==> op in before && config == before[op].record.policy
  {
    if op in before {
      var i :| 0 <= i < |items| && items[i] == Resolution(before[op], config, later);
    }
    if Released(items, op) {
      var i :| 0 <= i < |items| && IsResult(items[i].payload) && OperationOf(items[i].payload.record) == op;
      assert IsClosing(items[i], before, map[], config, later);
    }
  }

  lemma {:induction false} ClosedIsGone(log: seq<Item<Event>>, closed: seq<Item<Event>>, before: map<string, Intent>,
                                        config: string,
                                        later: int, op: string)
    requires before == Replay(log).pending && Closes(closed, before, map[], config, later) && IsPart(before, before)
    requires forall i :: 0 <= i < |closed| ==> !closed[i].payload.Prepared?
    ensures op !in Replay(log + closed).pending
  {
    ClosedPending(log, closed, op);
    if op in before {
      var i :| 0 <= i < |closed| && closed[i] == Resolution(before[op], config, later);
      assert Concerns(closed[i].payload) == Some(op);
    }
  }

  lemma {:induction false} NothingPending(log: seq<Item<Event>>, closed: seq<Item<Event>>,
                                          before: map<string, Intent>, config: string, later: int)
    requires before == Replay(log).pending && Closes(closed, before, map[], config, later)
    ensures Replay(log + closed).pending == map[]
  {
    PendingFiled(log);
    forall i | 0 <= i < |closed| ensures !closed[i].payload.Prepared? {
      assert IsClosing(closed[i], before, map[], config, later);
    }
    forall op ensures op !in Replay(log + closed).pending { ClosedIsGone(log, closed, before, config, later, op); }
  }

  /** The two-phase commit, end to end.  Whatever durable state a crash leaves while an untried
      release is being published, recovery leaves nothing pending, and the journal records the
      release as applied exactly when it did so before or the release was pending with the active
      policy; for a policy other than the one active before, exactly when it is active. */
  lemma {:induction false} CrashIsResolved(start: Durable, d: Durable, r: Record, rollback: bool,
                                           closed: seq<Item<Event>>, later: int)
    requires Traced(start, d, r, rollback)
    requires Closes(closed, Replay(d.journal).pending, map[], d.config, later)
    ensures Replay(d.journal + closed).pending == map[]
    ensures Released(d.journal + closed, OperationOf(r)) <==>
      Released(d.journal, OperationOf(r)) || (OperationOf(r) in Replay(d.journal).pending && d.config == r.policy)
    ensures start.config != r.policy ==> (Released(d.journal + closed, OperationOf(r)) <==> d.config == r.policy)
  {
    NothingPending(d.journal, closed, Replay(d.journal).pending, d.config, later);
    PendingFiled(d.journal);
    ReleasedMore(d.journal, closed, OperationOf(r));
    ClosedResult(closed, Replay(d.journal).pending, d.config, later, OperationOf(r));
  }

  // ---------------------------------------------------------------- compaction

  /** The operation an event is about, if any. */
  function Concerns(e: Event): Option<string> {
    match e
    case DraftSaved(_) => None
    case Prepared(intent) => Some(OperationOf(intent.record))
    case Published(r) => Some(OperationOf(r))
    case RolledBack(r) => Some(OperationOf(r))
    case Aborted(intent) => Some(OperationOf(intent.record))
  }

  predicate Chronological(log: seq<Item<Event>>) {
    forall i, j :: 0 <= i < j < |log| ==> log[i].time <= log[j].time
  }

  lemma {:induction false} PendingStep(log: seq<Item<Event>>, item: Item<Event>, op: string)
    ensures op in Replay(log + [item]).pending <==>
              if Concerns(item.payload) == Some(op) then item.payload.Prepared? else op in Replay(log).pending
  {
    ReplayAppend(log, item);
  }

  /** Events filed under an operation are about that operation. */
  lemma {:induction false} FiledUnderOperation(item: Item<Event>, r: Record)
    requires WellFiled(item) && item.entity == OperationOf(r)
    ensures Concerns(item.payload) == Some(OperationOf(r))
  {
    match item.payload
    case DraftSaved(policy) => RevisionsAreNotOperations(policy, r);
    case Published(p) => RevisionsAreNotOperations(p.policy, r);
    case RolledBack(p) => RevisionsAreNotOperations(p.policy, r);
    case _ =>
  }

  /** Once the operation has an entry of its own at or after the cutoff, full and compacted
      log agree on it for good. */
  lemma {:induction false} AgreeFromThere(log: seq<Item<Event>>, kept: set<string>, cutoff: int, r: Record)
    requires Chronological(log) && AllFiled(log)
    requires forall i :: 0 <= i < |log| && log[i].time >= cutoff ==> log[i].entity in kept
    requires exists i :: 0 <= i < |log| && log[i].entity == OperationOf(r) && log[i].time >= cutoff
    ensures OperationOf(r) in Replay(log).pending <==> OperationOf(r) in Replay(Only(log, kept)).pending
  {
    var n := |log| - 1;
    var before, item := log[..n], log[n];
    assert log == before + [item];
    PendingStep(before, item, OperationOf(r));
    OnlyAppend(before, item, kept);
    PendingStep(Only(before, kept), item, OperationOf(r));
    var i :| 0 <= i < |log| && log[i].entity == OperationOf(r) && log[i].time >= cutoff;
    if i < n {
      assert before[i] == log[i] && log[i].time <= log[n].time;
      AgreeFromThere(before, kept, cutoff, r);
    } else {
      FiledUnderOperation(item, r);
    }
  }

  /** An operation without entries of its own is not pending. */
  lemma {:induction false} NeverPrepared(log: seq<Item<Event>>, r: Record)
    requires forall i :: 0 <= i < |log| ==> WellFiled(log[i]) && log[i].entity != OperationOf(r)
    ensures OperationOf(r) !in Replay(log).pending
  {
    if log != [] {
      var n := |log| - 1;
      NeverPrepared(log[..n], r);
      assert log == log[..n] + [log[n]];
      PendingStep(log[..n], log[n], OperationOf(r));
    }
  }

  lemma {:induction false} OnlyMembers(log: seq<Item<Event>>, kept: set<string>)
    ensures forall i :: 0 <= i < |Only(log, kept)| ==> Only(log, kept)[i] in log && Only(log, kept)[i].entity in kept
  {
    if log != [] {
      OnlyMembers(log[..|log| - 1], kept);
      assert log == log[..|log| - 1] + [log[|log| - 1]];
    }
  }

  /** Compaction never turns a resolved release back into a pending one, although preparations
      and results are filed under different entities; a pending one stays pending exactly when
      its operation has an entry at or after the cutoff. */
  lemma {:induction false} CompactedPending(log: seq<Item<Event>>, cutoff: int, r: Record)
    requires Chronological(log) && AllFiled(log)
    ensures OperationOf(r) in Replay(Compacted(log, cutoff, {})).pending <==>
              OperationOf(r) in Replay(log).pending && Survives(log, cutoff, {}, OperationOf(r))
  {
    var kept := {} + Recent(log, cutoff);
    if Survives(log, cutoff, {}, OperationOf(r)) {
      AgreeFromThere(log, kept, cutoff, r);
    } else {
      OnlyMembers(log, kept);
      assert OperationOf(r) !in kept;
      NeverPrepared(Only(log, kept), r);
    }
  }

  /** The journal is compacted before it is reconciled at start-up.  An intent older than the
      cutoff is then forgotten: a policy that was written to the configuration just before the
      crash is never recorded as released. */
  lemma {:induction false} OldIntentIsForgotten(r: Record, prepared: int, cutoff: int)
    requires prepared < cutoff
    ensures var log := [Item(prepared, OperationOf(r), Prepared(Intent(false, r, "")))];
      && OperationOf(r) in Replay(log).pending
      && Replay(Compacted(log, cutoff, {})) == NONE
  {
    var item := Item(prepared, OperationOf(r), Prepared(Intent(false, r, "")));
    assert [] + [item] == [item];
    PendingStep([], item, OperationOf(r));
    assert {} + Recent([item], cutoff) == {};
    OnlyAppend([], item, {});
    assert Compacted([item], cutoff, {}) == [];
  }
}
