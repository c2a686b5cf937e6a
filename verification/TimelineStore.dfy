/** The request timeline: active records, bounded history, and the journal they are rebuilt
    from at restart. */
module TimelineStore {
  import opened Options
  import opened JournalLog
  import opened TimelineEvents

  datatype Record = Record(id: string, client: string, task: string, verb: string, path: string, state: string,
                           attempt: int, startedAt: int, completedAt: int, lastError: string,
                           events: seq<Event>, dropped: nat)

  datatype Payload = Started(record: Record)
                   | Happened(event: Event)
                   | Finished(outcome: string, completedAt: int)
                   | Unsupported(kind: string)

  datatype Limits = Limits(maxItems: nat, retention: int)

  /** The two collections that make up the store. */
  datatype View = View(active: map<string, Record>, history: seq<Record>)

  const UNSET := 0 // the zero time

  function NewRecord(id: string, client: string, task: string, verb: string, path: string, now: int): Record {
    Record(id, client, task, verb, path, "queued", 0, now, UNSET, "", [Event(now, "received", 0, "")], 0)
  }

  function WithEvent(r: Record, e: Event): Record {
    var (events, lost) := Added(r.events, e);
    r.(events := events,
       dropped := r.dropped + (if lost then 1 else 0),
       attempt := if e.attempt > r.attempt then e.attempt else r.attempt,
       lastError := if e.kind == "attempt_failed" then e.message else r.lastError)
  }

  function Closed(r: Record, outcome: string, at: int): Record { r.(state := outcome, completedAt := at) }

  /** What one journal entry does to the store; None when it cannot be replayed. */
  function Apply(v: View, entity: string, p: Payload): Option<View> {
    match p
    case Started(record) =>
      if record.id == "" || record.id != entity then None
      else Some(v.(active := v.active[entity := record]))
    case Happened(event) =>
      if entity !in v.active then None
      else Some(v.(active := v.active[entity := WithEvent(v.active[entity], event)]))
    case Finished(outcome, at) =>
      if entity !in v.active then None
      else Some(View(v.active - {entity}, [Closed(v.active[entity], outcome, at)] + v.history))
    case Unsupported(_) => None
  }

  /** The store a journal describes, before any pruning. */
  function Replay(log: seq<Item<Payload>>): Option<View> {
    if log == [] then Some(View(map[], [])) else
      var before := Replay(log[..|log| - 1]);
      if before.None? then None else Apply(before.value, log[|log| - 1].entity, log[|log| - 1].payload)
  }

  lemma {:induction false} ReplayAppend(log: seq<Item<Payload>>, item: Item<Payload>)
    ensures Replay(log + [item])
         == if Replay(log).None? then None else Apply(Replay(log).value, item.entity, item.payload)
  {
    assert (log + [item])[..|log|] == log;
  }

  // ---------------------------------------------------------------- pruning

  function Since(h: seq<Record>, cutoff: int): seq<Record> {
    if h == [] then [] else
      (if h[0].completedAt >= cutoff then [h[0]] else []) + Since(h[1..], cutoff)
  }

  function Take(h: seq<Record>, n: nat): seq<Record> { if |h| > n then h[..n] else h }

  function Prune(h: seq<Record>, limits: Limits, now: int): seq<Record> {
    Take(Since(h, now - limits.retention), limits.maxItems)
  }

  /** Newest first. */
  predicate Newest(h: seq<Record>) {
    forall i, j :: 0 <= i < j < |h| ==> h[i].completedAt >= h[j].completedAt
  }

  predicate Before(h: seq<Record>, clock: int) { forall i :: 0 <= i < |h| ==> h[i].completedAt <= clock }

  lemma {:induction false} SinceNone(h: seq<Record>, cutoff: int)
    requires forall i :: 0 <= i < |h| ==> h[i].completedAt < cutoff
    ensures Since(h, cutoff) == []
  {
    if h != [] { SinceNone(h[1..], cutoff); }
  }

  predicate Orderly(h: seq<Record>, clock: int) { Newest(h) && Before(h, clock) }

  lemma {:induction false} OrderlyFront(r: Record, h: seq<Record>, clock: int)
    requires Orderly(h, r.completedAt) && r.completedAt <= clock
    ensures Orderly([r] + h, clock)
  {
  }

  lemma {:induction false} SinceOrderly(h: seq<Record>, cutoff: int, clock: int)
    requires Orderly(h, clock)
    ensures Orderly(Since(h, cutoff), clock)
  {
    if h != [] {
      var rest := Since(h[1..], cutoff);
      SinceOrderly(h[1..], cutoff, h[0].completedAt);
      OrderlyFront(h[0], rest, clock);
      assert [] + rest == rest;
    }
  }

  /** A longer-ago cutoff first makes no difference, whatever is cut off the far end, as long
      as the list is newest first. */
  lemma {:induction false} TakeSince(h: seq<Record>, n: nat, early: int, late: int)
    requires Newest(h) && early <= late
    ensures Take(Since(Take(Since(h, early), n), late), n) == Take(Since(h, late), n)
  {
    if h != [] {
      if h[0].completedAt < late {
        SinceNone(h, late);
        SinceOrderly(h, early, h[0].completedAt);
        SinceNone(Take(Since(h, early), n), late);
      } else if n > 0 {
        TakeSince(h[1..], n - 1, early, late);
        TakeFront(h[0], h[1..], n, early, late);
        assert h == [h[0]] + h[1..];
      }
    }
  }

  lemma {:induction false} TakeOne(r: Record, h: seq<Record>, n: nat)
    requires n > 0
    ensures Take([r] + h, n) == [r] + Take(h, n - 1)
  {}

  lemma {:induction false} SinceOne(r: Record, h: seq<Record>, cutoff: int)
    requires r.completedAt >= cutoff
    ensures Since([r] + h, cutoff) == [r] + Since(h, cutoff)
  {
    assert ([r] + h)[1..] == h;
  }

  lemma {:induction false} TakeFront(r: Record, rest: seq<Record>, n: nat, early: int, late: int)
    requires n > 0 && early <= late <= r.completedAt
    requires Take(Since(Take(Since(rest, early), n - 1), late), n - 1) == Take(Since(rest, late), n - 1)
    ensures Take(Since(Take(Since([r] + rest, early), n), late), n) == Take(Since([r] + rest, late), n)
  {
    SinceOne(r, rest, early);
    SinceOne(r, rest, late);
    TakeOne(r, Since(rest, early), n);
    SinceOne(r, Take(Since(rest, early), n - 1), late);
    TakeOne(r, Since(Take(Since(rest, early), n - 1), late), n);
    TakeOne(r, Since(rest, late), n);
  }

  /** Pruning now and again later is pruning once, later. */
  lemma {:induction false} PruneTwice(h: seq<Record>, limits: Limits, now: int, later: int)
    requires Newest(h) && now <= later
    ensures Prune(Prune(h, limits, now), limits, later) == Prune(h, limits, later)
  {
    TakeSince(h, limits.maxItems, now - limits.retention, later - limits.retention);
  }

  /** Histories that look alike keep looking alike when the same record is put in front. */
  lemma {:induction false} PruneFront(h: seq<Record>, g: seq<Record>, r: Record, limits: Limits, now: int)
    requires Prune(h, limits, now) == Prune(g, limits, now)
    ensures Prune([r] + h, limits, now) == Prune([r] + g, limits, now)
  {
    var cutoff, n := now - limits.retention, limits.maxItems;
    SinceFront(r, h, cutoff);
    SinceFront(r, g, cutoff);
    if r.completedAt >= cutoff && n > 0 {
      TakeFewer(r, Since(h, cutoff), n);
      TakeFewer(r, Since(g, cutoff), n);
    }
  }

  lemma {:induction false} SinceFront(r: Record, h: seq<Record>, cutoff: int)
    ensures Since([r] + h, cutoff) == if r.completedAt >= cutoff then [r] + Since(h, cutoff) else Since(h, cutoff)
  {
    assert ([r] + h)[1..] == h;
    assert [] + Since(h, cutoff) == Since(h, cutoff);
  }

  lemma {:induction false} TakeFewer(r: Record, h: seq<Record>, n: nat)
    requires n > 0
    ensures Take([r] + h, n) == [r] + Take(Take(h, n), n - 1)
  {}

  // ---------------------------------------------------------------- steps

  /** The store, its journal and the time of its last step. */
  datatype Live = Live(view: View, log: seq<Item<Payload>>, clock: int)

  /** written is when the journal dated the entry. */
  datatype Op = Start(id: string, client: string, task: string, verb: string, path: string)
              | Add(id: string, event: Event)
              | Complete(id: string, outcome: string)
              | PruneHistory
              | Reload
              | Compact(cutoff: int)

  datatype Call = Call(op: Op, now: int, written: int, appended: bool)

  function Write(s: Live, v: View, now: int, item: Item<Payload>): Live { Live(v, s.log + [item], now) }

  /** The entry an operation appends, if any, when it happens at the given time. */
  function EntryOf(s: View, op: Op, now: int): Option<Payload> {
    match op
    case Start(id, client, task, verb, path) => Some(Started(NewRecord(id, client, task, verb, path, now)))
    case Add(id, event) =>
      if id in s.active then Some(Happened(if event.time == UNSET then event.(time := now) else event)) else None
    case Complete(id, outcome) => if id in s.active then Some(Finished(outcome, now)) else None
    case _ => None
  }

  /** The live object's own update. */
  function Update(s: View, op: Op, now: int): View {
    match op
    case Start(id, client, task, verb, path) =>
      s.(active := s.active[id := NewRecord(id, client, task, verb, path, now)])
    case Add(id, event) =>
      if id !in s.active then s
      else s.(active := s.active[id := WithEvent(s.active[id],
                                                 if event.time == UNSET then event.(time := now) else event)])
    case Complete(id, outcome) =>
      if id !in s.active then s
      else View(s.active - {id}, [Closed(s.active[id], outcome, now)] + s.history)
    case _ => s
  }

  function Entity(op: Op): string
    requires op.Start? || op.Add? || op.Complete?
  {
    op.id
  }

  function Step(s: Live, c: Call, limits: Limits): Live {
    match c.op
    case PruneHistory => s.(view := s.view.(history := Prune(s.view.history, limits, c.now)), clock := c.now)
    case Reload =>
      if Replay(s.log).None? then s
      else
        var v := Replay(s.log).value;
        s.(view := v.(history := Prune(v.history, limits, c.now)), clock := c.now)
    case Compact(cutoff) => s.(log := Compacted(s.log, cutoff, s.view.active.Keys), clock := c.now)
    case _ =>
      var entry := EntryOf(s.view, c.op, c.now);
      if entry.None? || !c.appended then s.(clock := c.now)
      else Write(s, Update(s.view, c.op, c.now), c.now, Item(c.written, Entity(c.op), entry.value))
  }

  /** The clock does not run backwards, and requests have identifiers. */
  predicate Timely(s: Live, c: Call) { s.clock <= c.now <= c.written && (c.op.Start? ==> c.op.id != "") }

  /** The operation takes nothing off the journal that the history still shows: asked of a
      compaction before it is made. */
  ghost predicate Spares(s: Live, c: Call, limits: Limits) {
    c.op.Compact? ==>
      forall r :: r in Prune(s.view.history, limits, c.now) ==> Survives(s.log, c.op.cutoff, s.view.active.Keys, r.id)
  }

  ghost predicate Fair(s: Live, c: Call, limits: Limits) { Timely(s, c) && Spares(s, c, limits) }

  function Run(calls: seq<Call>, limits: Limits): Live {
    if calls == [] then Live(View(map[], []), [], 0)
    else Step(Run(calls[..|calls| - 1], limits), calls[|calls| - 1], limits)
  }

  predicate TimelyRun(calls: seq<Call>, limits: Limits) {
    calls == [] || (TimelyRun(calls[..|calls| - 1], limits)
                    && Timely(Run(calls[..|calls| - 1], limits), calls[|calls| - 1]))
  }

  ghost predicate FairRun(calls: seq<Call>, limits: Limits) {
    calls == [] || (FairRun(calls[..|calls| - 1], limits)
                    && Fair(Run(calls[..|calls| - 1], limits), calls[|calls| - 1], limits))
  }

  // ---------------------------------------------------------------- restart equivalence

  ghost predicate LooksAlike(h: seq<Record>, g: seq<Record>, limits: Limits, clock: int) {
    forall later: int {:trigger Prune(h, limits, later)} | clock <= later :: Prune(h, limits, later) == Prune(g, limits,
                                                                                                              later)
  }

  /** Records carry the identifier of their entity. */
  predicate Named(v: View) { forall id :: id in v.active ==> v.active[id].id == id }

  /** Completions are dated no later than their entries. */
  predicate Dated(log: seq<Item<Payload>>) {
    forall i :: 0 <= i < |log| && log[i].payload.Finished? ==> log[i].payload.completedAt <= log[i].time
  }

  /** The journal replays to a store with the same active records, whose whole history cannot
      be told from the live one at any later pruning. */
  ghost predicate Recoverable(s: Live, limits: Limits) {
    && Replay(s.log).Some?
    && Replay(s.log).value.active == s.view.active
    && Orderly(s.view.history, s.clock)
    && Orderly(Replay(s.log).value.history, s.clock)
    && LooksAlike(s.view.history, Replay(s.log).value.history, limits, s.clock)
    && Named(s.view) && Dated(s.log)
  }

  /** Replaying an operation's entry repeats the operation. */
  lemma {:induction false} ReplayedUpdate(v: View, full: View, op: Op, now: int)
    requires full.active == v.active && EntryOf(v, op, now).Some? && (op.Start? ==> op.id != "")
    ensures Apply(full, Entity(op), EntryOf(v, op, now).value) == Some(Update(full, op, now))
    ensures Update(full, op, now).active == Update(v, op, now).active
  {
  }

  lemma {:induction false} UpdateOrderly(v: View, op: Op, clock: int, now: int)
    requires Orderly(v.history, clock) && clock <= now
    ensures Orderly(Update(v, op, now).history, now)
  {
  }

  lemma {:induction false} UpdateLooksAlike(v: View, full: View, op: Op, clock: int, now: int, limits: Limits)
    requires full.active == v.active && LooksAlike(v.history, full.history, limits, clock) && clock <= now
    ensures LooksAlike(Update(v, op, now).history, Update(full, op, now).history, limits, now)
  {
    if op.Complete? && op.id in v.active {
      var r := Closed(v.active[op.id], op.outcome, now);
      forall later: int | now <= later
        ensures Prune([r] + v.history, limits, later) == Prune([r] + full.history, limits, later)
      {
        assert Prune(v.history, limits, later) == Prune(full.history, limits, later);
        PruneFront(v.history, full.history, r, limits, later);
      }
    }
  }

  lemma {:induction false} UpdateNamed(v: View, op: Op, now: int)
    requires Named(v)
    ensures Named(Update(v, op, now))
  {
  }

  lemma {:induction false} WriteRecoverable(s: Live, c: Call, limits: Limits)
    requires Recoverable(s, limits) && Timely(s, c) && EntryOf(s.view, c.op, c.now).Some? && c.appended
    ensures Recoverable(Step(s, c, limits), limits)
  {
    var item := Item(c.written, Entity(c.op), EntryOf(s.view, c.op, c.now).value);
    var full := Replay(s.log).value;
    ReplayAppend(s.log, item);
    ReplayedUpdate(s.view, full, c.op, c.now);
    UpdateOrderly(s.view, c.op, s.clock, c.now);
    UpdateOrderly(full, c.op, s.clock, c.now);
    UpdateLooksAlike(s.view, full, c.op, s.clock, c.now, limits);
    UpdateNamed(s.view, c.op, c.now);
  }

  lemma {:induction false} PruneOrderly(h: seq<Record>, limits: Limits, now: int, clock: int)
    requires Orderly(h, clock) && clock <= now
    ensures Orderly(Prune(h, limits, now), now)
  {
    SinceOrderly(h, now - limits.retention, clock);
  }

  lemma {:induction false} PruneLooksAlike(h: seq<Record>, g: seq<Record>, limits: Limits, now: int, clock: int)
    requires Orderly(h, clock) && clock <= now && LooksAlike(h, g, limits, clock)
    ensures LooksAlike(Prune(h, limits, now), g, limits, now)
  {
    forall later: int | now <= later
      ensures Prune(Prune(h, limits, now), limits, later) == Prune(g, limits, later)
    {
      PruneTwice(h, limits, now, later);
      assert Prune(h, limits, later) == Prune(g, limits, later);
    }
  }

  lemma {:induction false} PruneRecoverable(s: Live, c: Call, limits: Limits)
    requires Recoverable(s, limits) && Timely(s, c) && (c.op.PruneHistory? || c.op.Reload?)
    ensures Recoverable(Step(s, c, limits), limits)
  {
    var full := Replay(s.log).value;
    var h := if c.op.Reload? then full.history else s.view.history;
    PruneOrderly(h, limits, c.now, s.clock);
    PruneLooksAlike(h, full.history, limits, c.now, s.clock);
  }

  // ---------------------------------------------------------------- compaction

  /** The records of some entities, in order. */
  function Among(h: seq<Record>, ids: set<string>): seq<Record> {
    if h == [] then [] else (if h[0].id in ids then [h[0]] else []) + Among(h[1..], ids)
  }

  ghost predicate Restricts(full: View, part: View, ids: set<string>) {
    && (forall id :: id in part.active <==> id in full.active && id in ids)
    && (forall id :: id in part.active ==> part.active[id] == full.active[id])
    && part.history == Among(full.history, ids)
    && Named(full)
  }

  lemma {:induction false} RestrictsApply(full: View, part: View, ids: set<string>, entity: string, p: Payload)
    requires Restricts(full, part, ids) && Apply(full, entity, p).Some?
    ensures entity in ids ==> Apply(part, entity, p).Some?
    ensures Restricts(Apply(full, entity, p).value, if entity in ids then Apply(part, entity, p).value else part, ids)
  {
    if p.Finished? {
      var r := Closed(full.active[entity], p.outcome, p.completedAt);
      assert ([r] + full.history)[1..] == full.history;
    }
  }

  /** Whole entities: what is left of a journal that replays still replays, to what those
      entities made of it. */
  lemma {:induction false} OnlyReplays(log: seq<Item<Payload>>, ids: set<string>)
    requires Replay(log).Some?
    ensures Replay(Only(log, ids)).Some?
    ensures Restricts(Replay(log).value, Replay(Only(log, ids)).value, ids)
  {
    if log != [] {
      var n := |log| - 1;
      OnlyReplays(log[..n], ids);
      RestrictsApply(Replay(log[..n]).value, Replay(Only(log[..n], ids)).value, ids, log[n].entity, log[n].payload);
      if log[n].entity in ids { ReplayAppend(Only(log[..n], ids), log[n]); }
    }
  }

  predicate AllSince(h: seq<Record>, ids: set<string>, cutoff: int) {
    forall i :: 0 <= i < |h| && h[i].completedAt >= cutoff ==> h[i].id in ids
  }

  /** Every record completed since the cutoff has an entry that recent. */
  lemma {:induction false} LateRecordsStay(log: seq<Item<Payload>>, ids: set<string>, cutoff: int)
    requires Replay(log).Some? && Dated(log) && Recent(log, cutoff) <= ids
    ensures Named(Replay(log).value)
    ensures AllSince(Replay(log).value.history, ids, cutoff)
  {
    if log != [] {
      var n := |log| - 1;
      assert Recent(log[..n], cutoff) <= Recent(log, cutoff);
      LateRecordsStay(log[..n], ids, cutoff);
      assert log[n].time >= cutoff ==> log[n].entity in Recent(log, cutoff);
    }
  }

  lemma {:induction false} AmongSince(h: seq<Record>, ids: set<string>, cutoff: int)
    requires AllSince(h, ids, cutoff)
    ensures Since(Among(h, ids), cutoff) == Since(h, cutoff)
  {
    if h != [] {
      var rest := Among(h[1..], ids);
      AmongSince(h[1..], ids, cutoff);
      assert ([h[0]] + rest)[1..] == rest && [] + rest == rest;
      assert [] + Since(h[1..], cutoff) == Since(h[1..], cutoff);
    }
  }

  lemma {:induction false} AmongOrderly(h: seq<Record>, ids: set<string>, clock: int)
    requires Orderly(h, clock)
    ensures Orderly(Among(h, ids), clock)
  {
    if h != [] {
      var rest := Among(h[1..], ids);
      AmongOrderly(h[1..], ids, h[0].completedAt);
      OrderlyFront(h[0], rest, clock);
      assert [] + rest == rest;
    }
  }

  lemma {:induction false} OnlyDated(log: seq<Item<Payload>>, ids: set<string>)
    requires Dated(log)
    ensures Dated(Only(log, ids))
  {
    if log != [] { OnlyDated(log[..|log| - 1], ids); }
  }

  /** Replay of a compacted journal succeeds, with the same active records and every record
      completed at or after the cutoff. */
  lemma {:induction false} CompactedReplays(log: seq<Item<Payload>>, cutoff: int, protected: set<string>, later: int)
    requires Replay(log).Some? && Dated(log) && Replay(log).value.active.Keys <= protected && cutoff <= later
    ensures Replay(Compacted(log, cutoff, protected)).Some?
    ensures Replay(Compacted(log, cutoff, protected)).value.active == Replay(log).value.active
    ensures Since(Replay(Compacted(log, cutoff, protected)).value.history, later)
         == Since(Replay(log).value.history, later)
  {
    var ids := protected + Recent(log, cutoff);
    OnlyReplays(log, ids);
    LateRecordsStay(log, ids, cutoff);
    AmongSince(Replay(log).value.history, ids, later);
  }

  lemma {:induction false} SinceMembers(h: seq<Record>, cutoff: int, r: Record)
    requires r in Since(h, cutoff)
    ensures r in h && r.completedAt >= cutoff
  {
    if h[0].completedAt < cutoff {
      assert [] + Since(h[1..], cutoff) == Since(h[1..], cutoff);
      SinceMembers(h[1..], cutoff, r);
    } else if r != h[0] {
      SinceMembers(h[1..], cutoff, r);
    }
  }

  lemma {:induction false} AmongMembers(h: seq<Record>, ids: set<string>, r: Record)
    requires r in Among(h, ids)
    ensures r.id in ids
  {
    if h[0].id !in ids {
      assert [] + Among(h[1..], ids) == Among(h[1..], ids);
      AmongMembers(h[1..], ids, r);
    } else if r != h[0] {
      AmongMembers(h[1..], ids, r);
    }
  }

  /** Everything the history shows belongs to the given entities. */
  predicate Shown(h: seq<Record>, ids: set<string>, cutoff: int, n: nat) {
    forall r :: r in Take(Since(h, cutoff), n) ==> r.id in ids
  }

  lemma {:induction false} AmongFront(r: Record, h: seq<Record>, ids: set<string>)
    ensures Among([r] + h, ids) == if r.id in ids then [r] + Among(h, ids) else Among(h, ids)
  {
    assert ([r] + h)[1..] == h;
    assert [] + Among(h, ids) == Among(h, ids);
  }

  lemma {:induction false} ShownNext(r: Record, rest: seq<Record>, ids: set<string>, cutoff: int, n: nat)
    requires Shown([r] + rest, ids, cutoff, n) && r.completedAt >= cutoff && n > 0
    ensures r.id in ids && Shown(rest, ids, cutoff, n - 1)
  {
    SinceFront(r, rest, cutoff);
    TakeOne(r, Since(rest, cutoff), n);
    assert r in [r] + Take(Since(rest, cutoff), n - 1);
  }

  lemma {:induction false} ShownFront(r: Record, rest: seq<Record>, ids: set<string>, cutoff: int, n: nat)
    requires r.completedAt >= cutoff && n > 0 && r.id in ids
    requires Take(Since(Among(rest, ids), cutoff), n - 1) == Take(Since(rest, cutoff), n - 1)
    ensures Take(Since(Among([r] + rest, ids), cutoff), n) == Take(Since([r] + rest, cutoff), n)
  {
    AmongFront(r, rest, ids);
    SinceFront(r, Among(rest, ids), cutoff);
    SinceFront(r, rest, cutoff);
    TakeOne(r, Since(Among(rest, ids), cutoff), n);
    TakeOne(r, Since(rest, cutoff), n);
  }

  /** What is shown stays the same exactly when all of it belongs to the entities that stay. */
  lemma {:induction false} ShownIff(h: seq<Record>, ids: set<string>, cutoff: int, n: nat)
    ensures Take(Since(Among(h, ids), cutoff), n) == Take(Since(h, cutoff), n) <==> Shown(h, ids, cutoff, n)
  {
    if Take(Since(Among(h, ids), cutoff), n) == Take(Since(h, cutoff), n) {
      forall r | r in Take(Since(h, cutoff), n) ensures r.id in ids {
        SinceMembers(Among(h, ids), cutoff, r);
        AmongMembers(h, ids, r);
      }
    }
    if Shown(h, ids, cutoff, n) { ShownStays(h, ids, cutoff, n); }
  }

  lemma {:induction false} ShownStays(h: seq<Record>, ids: set<string>, cutoff: int, n: nat)
    requires Shown(h, ids, cutoff, n)
    ensures Take(Since(Among(h, ids), cutoff), n) == Take(Since(h, cutoff), n)
  {
    if h != [] && n > 0 {
      var r, rest := h[0], h[1..];
      assert h == [r] + rest;
      if r.completedAt >= cutoff {
        ShownNext(r, rest, ids, cutoff, n);
        ShownStays(rest, ids, cutoff, n - 1);
        ShownFront(r, rest, ids, cutoff, n);
      } else {
        SinceFront(r, rest, cutoff);
        AmongFront(r, rest, ids);
        SinceFront(r, Among(rest, ids), cutoff);
        ShownStays(rest, ids, cutoff, n);
      }
    }
  }

  /** Every record shown at the given time belongs to the given entities. */
  ghost predicate ShownAmong(h: seq<Record>, ids: set<string>, limits: Limits, now: int) {
    forall r :: r in Prune(h, limits, now) ==> r.id in ids
  }

  lemma {:induction false} PruneAmongIff(h: seq<Record>, ids: set<string>, limits: Limits, now: int)
    ensures Prune(Among(h, ids), limits, now) == Prune(h, limits, now) <==> ShownAmong(h, ids, limits, now)
  {
    ShownIff(h, ids, now - limits.retention, limits.maxItems);
  }

  lemma {:induction false} PruneMembers(h: seq<Record>, limits: Limits, now: int, r: Record)
    requires r in Prune(h, limits, now)
    ensures r in h && r.completedAt >= now - limits.retention
  {
    SinceMembers(h, now - limits.retention, r);
  }

  /** Later the history shows no more than now. */
  lemma {:induction false} ShownLater(h: seq<Record>, ids: set<string>, limits: Limits, now: int, later: int)
    requires Newest(h) && now <= later && ShownAmong(h, ids, limits, now)
    ensures ShownAmong(h, ids, limits, later)
  {
    PruneTwice(h, limits, now, later);
    forall r | r in Prune(h, limits, later) ensures r.id in ids {
      PruneMembers(Prune(h, limits, now), limits, later, r);
    }
  }

  lemma {:induction false} ShownLooksAlike(h: seq<Record>, full: seq<Record>, ids: set<string>, limits: Limits,
                                           clock: int, now: int)
    requires LooksAlike(h, full, limits, clock) && clock <= now && Orderly(full, clock)
    requires ShownAmong(full, ids, limits, now)
    ensures LooksAlike(h, Among(full, ids), limits, now)
  {
    forall later: int | now <= later ensures Prune(h, limits, later) == Prune(Among(full, ids), limits, later) {
      assert Prune(h, limits, later) == Prune(full, limits, later);
      ShownLater(full, ids, limits, now, later);
      PruneAmongIff(full, ids, limits, later);
    }
  }

  /** The compacted journal cannot be told from the store if and only if everything the history
      shows now is kept. */
  lemma {:induction false} AmongLooksAlike(h: seq<Record>, full: seq<Record>, ids: set<string>, limits: Limits,
                                           clock: int, now: int)
    requires LooksAlike(h, full, limits, clock) && clock <= now && Orderly(full, clock)
    ensures LooksAlike(h, Among(full, ids), limits, now) <==> ShownAmong(h, ids, limits, now)
  {
    assert Prune(h, limits, now) == Prune(full, limits, now);
    if ShownAmong(h, ids, limits, now) { ShownLooksAlike(h, full, ids, limits, clock, now); }
    if LooksAlike(h, Among(full, ids), limits, now) {
      assert Prune(h, limits, now) == Prune(Among(full, ids), limits, now);
      PruneAmongIff(full, ids, limits, now);
    }
  }

  lemma {:induction false} CompactOrderly(log: seq<Item<Payload>>, cutoff: int, protected: set<string>, clock: int)
    requires Replay(log).Some? && Dated(log) && Orderly(Replay(log).value.history, clock)
    ensures Replay(Compacted(log, cutoff, protected)).Some?
    ensures Orderly(Replay(Compacted(log, cutoff, protected)).value.history, clock)
    ensures Dated(Compacted(log, cutoff, protected))
  {
    var ids := protected + Recent(log, cutoff);
    OnlyReplays(log, ids);
    AmongOrderly(Replay(log).value.history, ids, clock);
    OnlyDated(log, ids);
  }

  lemma {:induction false} SparesIsAmong(s: Live, c: Call, limits: Limits, ids: set<string>)
    requires c.op.Compact? && ids == s.view.active.Keys + Recent(s.log, c.op.cutoff)
    ensures Spares(s, c, limits) <==> ShownAmong(s.view.history, ids, limits, c.now)
  {
    forall id ensures Survives(s.log, c.op.cutoff, s.view.active.Keys, id) <==> id in ids {}
  }

  /** A compaction keeps the store recoverable if and only if it spares what the history shows. */
  lemma {:induction false} CompactRecoverableIff(s: Live, c: Call, limits: Limits)
    requires Recoverable(s, limits) && Timely(s, c) && c.op.Compact?
    ensures Recoverable(Step(s, c, limits), limits) <==> Spares(s, c, limits)
  {
    var ids, full := s.view.active.Keys + Recent(s.log, c.op.cutoff), Replay(s.log).value;
    SparesIsAmong(s, c, limits, ids);
    AmongLooksAlike(s.view.history, full.history, ids, limits, s.clock, c.now);
    CompactedRest(s, c.op.cutoff, ids);
    AssembledIff(s, Step(s, c, limits), ids, limits);
  }

  /** All that matters after a compaction but the look of the history. */
  ghost predicate Shortened(s: Live, t: Live, ids: set<string>) {
    && Replay(s.log).Some? && Replay(t.log).Some? && Replay(t.log).value.active == s.view.active
    && Replay(t.log).value.history == Among(Replay(s.log).value.history, ids)
    && Orderly(Replay(t.log).value.history, s.clock) && Dated(t.log)
    && t.view == s.view && s.clock <= t.clock
  }

  lemma {:induction false} CompactedRest(s: Live, cutoff: int, ids: set<string>)
    requires Replay(s.log).Some? && Replay(s.log).value.active == s.view.active && Dated(s.log)
    requires Orderly(Replay(s.log).value.history, s.clock) && ids == s.view.active.Keys + Recent(s.log, cutoff)
    ensures Shortened(s, s.(log := Compacted(s.log, cutoff, s.view.active.Keys)), ids)
  {
    OnlyReplays(s.log, ids);
    CompactOrderly(s.log, cutoff, s.view.active.Keys, s.clock);
    CompactedReplays(s.log, cutoff, s.view.active.Keys, cutoff);
  }

  lemma {:induction false} AssembledIff(s: Live, t: Live, ids: set<string>, limits: Limits)
    requires Recoverable(s, limits) && Shortened(s, t, ids)
    ensures Recoverable(t, limits)
       <==> LooksAlike(s.view.history, Among(Replay(s.log).value.history, ids), limits, t.clock)
  {}

  /** A journal kept at least as long as the history always spares it. */
  lemma {:induction false} OldCutoffSpares(s: Live, c: Call, limits: Limits)
    requires Recoverable(s, limits) && Timely(s, c) && c.op.Compact? && c.op.cutoff <= c.now - limits.retention
    ensures Spares(s, c, limits)
  {
    var ids, full := s.view.active.Keys + Recent(s.log, c.op.cutoff), Replay(s.log).value;
    SparesIsAmong(s, c, limits, ids);
    LateRecordsStay(s.log, ids, c.op.cutoff);
    assert Prune(s.view.history, limits, c.now) == Prune(full.history, limits, c.now);
    forall r | r in Prune(s.view.history, limits, c.now) ensures r.id in ids {
      PruneMembers(full.history, limits, c.now, r);
    }
  }

  lemma {:induction false} StepRecoverable(s: Live, c: Call, limits: Limits)
    requires Recoverable(s, limits) && Timely(s, c)
    ensures Recoverable(Step(s, c, limits), limits) <==> Spares(s, c, limits)
  {
    if c.op.PruneHistory? || c.op.Reload? { PruneRecoverable(s, c, limits); }
    else if c.op.Compact? { CompactRecoverableIff(s, c, limits); }
    else if EntryOf(s.view, c.op, c.now).Some? && c.appended { WriteRecoverable(s, c, limits); }
  }

  /** The store could be recovered after each of the calls. */
  ghost predicate AlwaysRecoverable(calls: seq<Call>, limits: Limits) {
    Recoverable(Run(calls, limits), limits) && (calls == [] || AlwaysRecoverable(calls[..|calls| - 1], limits))
  }

  /** Restart equivalence, exactly: over a whole run it holds after every call if and only if
      each compaction spared what the history showed at that moment. */
  lemma {:induction false} RecoverableIff(calls: seq<Call>, limits: Limits)
    requires TimelyRun(calls, limits)
    ensures AlwaysRecoverable(calls, limits) <==> FairRun(calls, limits)
  {
    if calls != [] {
      var past, last := calls[..|calls| - 1], calls[|calls| - 1];
      RecoverableIff(past, limits);
      if AlwaysRecoverable(past, limits) {
        assert Recoverable(Run(past, limits), limits);
        StepRecoverable(Run(past, limits), last, limits);
      }
    }
  }

  lemma {:induction false} FairIsTimely(calls: seq<Call>, limits: Limits)
    requires FairRun(calls, limits)
    ensures TimelyRun(calls, limits)
  {
    if calls != [] { FairIsTimely(calls[..|calls| - 1], limits); }
  }

  lemma {:induction false} RunRecoverable(calls: seq<Call>, limits: Limits)
    requires FairRun(calls, limits)
    ensures Recoverable(Run(calls, limits), limits)
  {
    FairIsTimely(calls, limits);
    RecoverableIff(calls, limits);
  }

  /** Restarting at any moment of any run gives the store that was lost: the same active
      records, and the same history once both are pruned at that moment. */
  lemma {:induction false} RestartEquivalence(calls: seq<Call>, limits: Limits, now: int)
    requires FairRun(calls, limits) && Run(calls, limits).clock <= now
    ensures Replay(Run(calls, limits).log).Some?
    ensures Replay(Run(calls, limits).log).value.active == Run(calls, limits).view.active
    ensures Prune(Replay(Run(calls, limits).log).value.history, limits, now)
         == Prune(Run(calls, limits).view.history, limits, now)
  {
    RunRecoverable(calls, limits);
    var s := Run(calls, limits);
    assert Prune(s.view.history, limits, now) == Prune(Replay(s.log).value.history, limits, now);
  }

  // ---------------------------------------------------------------- a journal kept for less than the history

  lemma {:induction false} RunAppend(calls: seq<Call>, c: Call, limits: Limits)
    ensures Run(calls + [c], limits) == Step(Run(calls, limits), c, limits)
    ensures TimelyRun(calls + [c], limits) <==> TimelyRun(calls, limits) && Timely(Run(calls, limits), c)
  {
    assert (calls + [c])[..|calls|] == calls;
  }

  /** A request starts and completes. */
  function AtOnce(id: string): seq<Call> {
    [] + [Call(Start(id, "", "", "", ""), 0, 0, true)] + [Call(Complete(id, ""), 0, 0, true)]
  }

  /** Then the journal is compacted with a cutoff after that. */
  function Brief(id: string, cutoff: int): seq<Call> { AtOnce(id) + [Call(Compact(cutoff), cutoff, cutoff, true)] }

  /** The store once its only request has completed at time zero. */
  predicate JustDone(s: Live) {
    && s.view.active == map[] && |s.view.history| == 1 && s.view.history[0].completedAt == 0 && s.clock == 0
    && forall i :: 0 <= i < |s.log| ==> s.log[i].time == 0
  }

  lemma {:induction false} CompletesAtOnce(id: string, limits: Limits)
    requires id != ""
    ensures TimelyRun(AtOnce(id), limits) && JustDone(Run(AtOnce(id), limits))
  {
    var start, finish := Call(Start(id, "", "", "", ""), 0, 0, true), Call(Complete(id, ""), 0, 0, true);
    RunAppend([], start, limits);
    RunAppend([] + [start], finish, limits);
  }

  lemma {:induction false} CutShort(s: Live, limits: Limits, cutoff: int)
    requires JustDone(s) && limits.maxItems > 0 && 0 < cutoff <= limits.retention
    ensures Compacted(s.log, cutoff, s.view.active.Keys) == []
    ensures |Prune(s.view.history, limits, cutoff)| == 1
  {
    assert s.view.active.Keys + Recent(s.log, cutoff) == {};
    NothingLeft(s.log);
    assert s.view.history == [s.view.history[0]] + [];
    SinceFront(s.view.history[0], [], cutoff - limits.retention);
  }

  /** If the history is kept for longer than the journal, the live store shows a completed
      request that is gone after a restart. */
  lemma {:induction false} ShortJournalForgets(id: string, limits: Limits, cutoff: int)
    requires id != "" && limits.maxItems > 0 && 0 < cutoff <= limits.retention
    ensures var s := Run(Brief(id, cutoff), limits);
      && TimelyRun(Brief(id, cutoff), limits) && Replay(s.log).Some?
      && |Prune(s.view.history, limits, cutoff)| == 1 && Prune(Replay(s.log).value.history, limits, cutoff) == []
  {
    var calls, last := AtOnce(id), Call(Compact(cutoff), cutoff, cutoff, true);
    CompletesAtOnce(id, limits);
    RunAppend(calls, last, limits);
    Forgotten(Run(calls, limits), Step(Run(calls, limits), last, limits), limits, cutoff);
  }

  lemma {:induction false} Forgotten(s: Live, t: Live, limits: Limits, cutoff: int)
    requires JustDone(s) && limits.maxItems > 0 && 0 < cutoff <= limits.retention
    requires t == Step(s, Call(Compact(cutoff), cutoff, cutoff, true), limits)
    ensures Replay(t.log).Some? && |Prune(t.view.history, limits, cutoff)| == 1
    ensures Prune(Replay(t.log).value.history, limits, cutoff) == []
  {
    CutShort(s, limits, cutoff);
  }

  lemma {:induction false} NothingLeft(log: seq<Item<Payload>>)
    ensures Only(log, {}) == []
  {
    if log != [] { NothingLeft(log[..|log| - 1]); }
  }

  // ---------------------------------------------------------------- a record's own events

  function WithEvents(r: Record, evs: seq<Event>): Record {
    if evs == [] then r else WithEvent(WithEvents(r, evs[..|evs| - 1]), evs[|evs| - 1])
  }

  predicate NoFailure(evs: seq<Event>) { forall j :: 0 <= j < |evs| ==> evs[j].kind != "attempt_failed" }

  /** The message of the last failed attempt, or what it was before if none failed. */
  predicate LastFailure(evs: seq<Event>, first: string, message: string) {
    && (NoFailure(evs) ==> message == first)
    && forall i :: 0 <= i < |evs| && evs[i].kind == "attempt_failed" && NoFailure(evs[i + 1..]) ==>
         message == evs[i].message
  }

  predicate Highest(evs: seq<Event>, first: int, attempt: int) {
    && first <= attempt && (forall i :: 0 <= i < |evs| ==> evs[i].attempt <= attempt)
    && (attempt == first || exists i :: 0 <= i < |evs| && evs[i].attempt == attempt)
  }

  /** A record's list is the trimming of everything added to it; its attempt number is the
      highest and its error that of the last failure, whether or not that event was kept. */
  lemma {:induction false} RecordEvents(r: Record, anchor: Event, evs: seq<Event>)
    requires r.events == [anchor] && r.dropped == 0
    ensures Trimmed(Kept(WithEvents(r, evs).events, WithEvents(r, evs).dropped), anchor, evs)
    ensures Highest(evs, r.attempt, WithEvents(r, evs).attempt)
    ensures LastFailure(evs, r.lastError, WithEvents(r, evs).lastError)
  {
    AddAllTrims(anchor, evs);
    RecordFollows(r, anchor, evs);
    RecordHighest(r, evs);
    RecordLastFailure(r, evs);
  }

  lemma {:induction false} RecordFollows(r: Record, anchor: Event, evs: seq<Event>)
    requires r.events == [anchor] && r.dropped == 0
    ensures Kept(WithEvents(r, evs).events, WithEvents(r, evs).dropped) == AddAll(anchor, evs)
  {
    if evs != [] { RecordFollows(r, anchor, evs[..|evs| - 1]); }
  }

  lemma {:induction false} RecordHighest(r: Record, evs: seq<Event>)
    ensures Highest(evs, r.attempt, WithEvents(r, evs).attempt)
  {
    if evs != [] {
      var past := evs[..|evs| - 1];
      RecordHighest(r, past);
      var a := WithEvents(r, past).attempt;
      if a != r.attempt {
        var i :| 0 <= i < |past| && past[i].attempt == a;
        assert evs[i].attempt == a;
      }
    }
  }

  lemma {:induction false} RecordLastFailure(r: Record, evs: seq<Event>)
    ensures LastFailure(evs, r.lastError, WithEvents(r, evs).lastError)
  {
    if evs != [] {
      var past, last := evs[..|evs| - 1], evs[|evs| - 1];
      RecordLastFailure(r, past);
      if NoFailure(evs) { assert forall j :: 0 <= j < |past| ==> past[j] == evs[j]; }
      forall i | 0 <= i < |evs| && evs[i].kind == "attempt_failed" && NoFailure(evs[i + 1..])
        ensures WithEvents(r, evs).lastError == evs[i].message
      {
        if i < |past| {
          var now, then_ := evs[i + 1..], past[i + 1..];
          assert now == then_ + [last] && now[|then_|] == last;
          assert forall j :: 0 <= j < |then_| ==> then_[j] == now[j];
        }
      }
    }
  }

  // ---------------------------------------------------------------- restart

  /** Requests a dead process left active are closed one by one, in some order. */
  function CloseAll(s: Live, order: seq<string>, now: int, written: int, limits: Limits): Live {
    if order == [] then s else
      Step(CloseAll(s, order[..|order| - 1], now, written, limits),
           Call(Complete(order[|order| - 1], "orphaned"), now, written, true), limits)
  }

  function Orphans(active: map<string, Record>, order: seq<string>, now: int): seq<Record>
    requires forall i :: 0 <= i < |order| ==> order[i] in active
  {
    if order == [] then [] else
      var n := |order| - 1;
      [Closed(active[order[n]], "orphaned", now)] + Orphans(active, order[..n], now)
  }

  predicate Distinct(order: seq<string>) { forall i, j :: 0 <= i < j < |order| ==> order[i] != order[j] }

  /** Each interrupted request becomes one orphaned record on top of the history; the others
      and what the journal recovers are untouched. */
  lemma {:induction false} CloseAllEffect(s: Live, order: seq<string>, now: int, written: int, limits: Limits)
    requires Recoverable(s, limits) && s.clock <= now <= written
    requires Distinct(order) && forall i :: 0 <= i < |order| ==> order[i] in s.view.active
    ensures var t := CloseAll(s, order, now, written, limits);
      && Recoverable(t, limits) && t.clock <= now
      && t.view.active == s.view.active - (set i | 0 <= i < |order| :: order[i])
      && t.view.history == Orphans(s.view.active, order, now) + s.view.history
      && |t.log| == |s.log| + |order|
  {
    if order != [] {
      var n := |order| - 1;
      CloseAllEffect(s, order[..n], now, written, limits);
      CloseOne(s, CloseAll(s, order[..n], now, written, limits), order[..n], order[n], now, written, limits);
      assert order == order[..n] + [order[n]];
    } else {
      assert [] + s.view.history == s.view.history;
    }
  }

  lemma {:induction false} CloseOne(s: Live, t: Live, before: seq<string>, id: string, now: int, written: int,
                                    limits: Limits)
    requires Recoverable(t, limits) && t.clock <= now <= written
    requires id in s.view.active && id !in before && forall i :: 0 <= i < |before| ==> before[i] in s.view.active
    requires t.view.active == s.view.active - (set i | 0 <= i < |before| :: before[i])
    requires t.view.history == Orphans(s.view.active, before, now) + s.view.history
    ensures var order := before + [id];
      var u := Step(t, Call(Complete(id, "orphaned"), now, written, true), limits);
      && Recoverable(u, limits) && u.clock <= now
      && u.view.active == s.view.active - (set i | 0 <= i < |order| :: order[i])
      && u.view.history == Orphans(s.view.active, order, now) + s.view.history
      && |u.log| == |t.log| + 1
  {
    var order := before + [id];
    StepRecoverable(t, Call(Complete(id, "orphaned"), now, written, true), limits);
    assert order[..|before|] == before;
    var closed := Closed(s.view.active[id], "orphaned", now);
    assert [closed] + t.view.history == [closed] + Orphans(s.view.active, before, now) + s.view.history;
    assert (set i | 0 <= i < |order| :: order[i]) == (set i | 0 <= i < |before| :: before[i]) + {id} by {
      assert order[|before|] == id;
      assert forall i :: 0 <= i < |before| ==> order[i] == before[i];
    }
  }

  // ---------------------------------------------------------------- the store

  class Store {
    var active: map<string, Record>
    var history: seq<Record>
    var log: seq<Item<Payload>>
    var limits: Limits

    function Model(clock: int): Live reads this { Live(View(active, history), log, clock) }

    constructor (limits: Limits, log: seq<Item<Payload>>)
      ensures active == map[] && history == [] && this.log == log && this.limits == limits
    {
      active, history := map[], [];
      this.log, this.limits := log, limits;
    }

    method Start(id: string, client: string, task: string, verb: string, path: string,
                 now: int, written: int, appended: bool) returns (ok: bool)
      modifies this
      ensures limits == old(limits) && ok == appended
      ensures Model(now)
           == Step(old(Model(now)), Call(Op.Start(id, client, task, verb, path), now, written, appended), limits)
    {
      if !appended { return false; }
      var record := Record(id, client, task, verb, path, "queued", 0, now, UNSET, "", [Event(now, "received", 0, "")],
                           0);
      log := log + [Item(written, id, Started(record))];
      active := active[id := record];
      ok := true;
    }

    method Add(id: string, event: Event, now: int, written: int, appended: bool) returns (ok: bool)
      modifies this
      ensures limits == old(limits) && ok == (appended || id !in old(active))
      ensures Model(now) == Step(old(Model(now)), Call(Op.Add(id, event), now, written, appended), limits)
    {
      if id !in active { return true; }
      var e := if event.time == UNSET then event.(time := now) else event;
      if !appended { return false; }
      log := log + [Item(written, id, Happened(e))];
      var record := ApplyEvent(active[id], e);
      active := active[id := record];
      ok := true;
    }

    method Finish(id: string, outcome: string, now: int, written: int, appended: bool) returns (ok: bool)
      modifies this
      ensures limits == old(limits) && ok == (appended || id !in old(active))
      ensures id !in old(active) || !appended ==> Model(now) == old(Model(now))
      ensures id in old(active) && appended ==>
        Model(now) == Step(Step(old(Model(now)), Call(Complete(id, outcome), now, written, appended), limits),
                           Call(PruneHistory, now, written, appended), limits)
      ensures id in old(active) && appended ==> |history| <= limits.maxItems
    {
      if id !in active { return true; }
      if !appended { return false; }
      log := log + [Item(written, id, Finished(outcome, now))];
      var record := active[id];
      active := active - {id};
      history := [record.(state := outcome, completedAt := now)] + history;
      PruneLocked(now);
      ok := true;
    }

    method History(now: int) returns (result: seq<Record>)
      modifies this`history
      ensures Model(now) == Step(old(Model(now)), Call(PruneHistory, now, now, true), limits) && result == history
      ensures |result| <= limits.maxItems
    {
      PruneLocked(now);
      result := history;
    }

    method PruneLocked(now: int)
      modifies this`history
      ensures history == Prune(old(history), limits, now) && |history| <= limits.maxItems
    {
      var cutoff := now - limits.retention;
      var kept := Filter(history, cutoff);
      if |kept| > limits.maxItems { kept := kept[..limits.maxItems]; }
      history := kept;
    }

    /** Rebuilds an empty store from its journal. */
    method Load(now: int) returns (ok: bool)
      requires active == map[] && history == []
      modifies this
      ensures limits == old(limits) && log == old(log) && ok == Replay(log).Some?
      ensures ok ==> Model(now) == Step(old(Model(now)), Call(Reload, now, now, true), limits)
      ensures ok ==> |history| <= limits.maxItems
    {
      var rebuilt := Rebuild(log);
      if rebuilt.None? { return false; }
      active, history := rebuilt.value.active, rebuilt.value.history;
      PruneLocked(now);
      ok := true;
    }

    method Orphan(id: string, now: int, written: int)
      requires id in active
      modifies this
      ensures limits == old(limits) && active == old(active) - {id}
      ensures Model(now) == Step(old(Model(now)), Call(Complete(id, "orphaned"), now, written, true), limits)
    {
      log := log + [Item(written, id, Finished("orphaned", now))];
      history := [active[id].(state := "orphaned", completedAt := now)] + history;
      active := active - {id};
    }

    /** Closes the active requests as orphaned, in any order, until all are or an append fails;
        good is how many appends succeed. */
    method OrphanInterrupted(now: int, written: int, good: nat) returns (done: bool, ghost order: seq<string>)
      modifies this
      ensures limits == old(limits) && Distinct(order)
      ensures forall id :: id in old(active) <==> id in order || id in active
      ensures forall id :: id in order ==> id !in active
      ensures done ==> active == map[]
      ensures !done ==> active != map[] && |order| == good
      ensures done ==> |order| <= good
      ensures Model(now) == OrphanedBy(old(Model(now)), order, now, written, limits, done)
    {
      order := [];
      var left := good;
      while active != map[]
        invariant limits == old(limits) && Distinct(order) && |order| + left == good
        invariant forall id :: id in old(active) <==> id in order || id in active
        invariant forall id :: id in order ==> id !in active
        invariant Model(now) == CloseAll(old(Model(now)), order, now, written, limits)
        decreases |active|
      {
        if left == 0 { return false, order; }
        var id := AnyKey(active);
        assert (order + [id])[..|order|] == order;
        Orphan(id, now, written);
        order, left := order + [id], left - 1;
      }
      PruneLocked(now);
      done := true;
    }
  }

  /** The requests closed one by one, and the history pruned once all are. */
  function OrphanedBy(s: Live, order: seq<string>, now: int, written: int, limits: Limits, done: bool): Live {
    var t := CloseAll(s, order, now, written, limits);
    if done then Step(t, Call(PruneHistory, now, written, true), limits) else t
  }

  method Rebuild(entries: seq<Item<Payload>>) returns (rebuilt: Option<View>)
    ensures rebuilt == Replay(entries)
  {
    var v := View(map[], []);
    for i := 0 to |entries|
      invariant Replay(entries[..i]) == Some(v)
    {
      ReplayAppend(entries[..i], entries[i]);
      assert entries[..i] + [entries[i]] == entries[..i + 1];
      var next := Apply(v, entries[i].entity, entries[i].payload);
      if next.None? {
        ReplayStuck(entries, i + 1);
        return None;
      }
      v := next.value;
    }
    assert entries[..|entries|] == entries;
    rebuilt := Some(v);
  }

  method AnyKey(m: map<string, Record>) returns (id: string)
    requires m != map[]
    ensures id in m
  {
    assert m.Keys != {};
    id :| id in m.Keys;
  }

  method Filter(h: seq<Record>, cutoff: int) returns (kept: seq<Record>)
    ensures kept == Since(h, cutoff)
  {
    kept := [];
    for i := 0 to |h|
      invariant kept + Since(h[i..], cutoff) == Since(h, cutoff)
    {
      assert h[i..][1..] == h[i + 1..];
      if h[i].completedAt >= cutoff { kept := kept + [h[i]]; }
    }
  }

  method ApplyEvent(r: Record, e: Event) returns (changed: Record)
    ensures changed == WithEvent(r, e)
  {
    var events, lost := AddEvent(r.events, e);
    changed := r.(events := events);
    if lost { changed := changed.(dropped := changed.dropped + 1); }
    if e.attempt > changed.attempt { changed := changed.(attempt := e.attempt); }
    if e.kind == "attempt_failed" { changed := changed.(lastError := e.message); }
  }

  lemma {:induction false} ReplayStuck(log: seq<Item<Payload>>, n: nat)
    requires n <= |log| && Replay(log[..n]).None?
    ensures Replay(log).None?
    decreases |log| - n
  {
    if n < |log| {
      assert log[..n + 1][..n] == log[..n];
      ReplayStuck(log, n + 1);
    } else {
      assert log[..n] == log;
    }
  }
}
