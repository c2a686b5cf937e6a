/** What the history shows, over whole runs: the newest completed requests, within the retention
    and no more than the maximum; and which requests are active. */
module TimelineHistory {
  import opened Options
  import opened JournalLog
  import opened TimelineEvents
  import opened TimelineStore

  // ---------------------------------------------------------------- pruning, declaratively

  function Least(x: nat, y: nat): nat { if x < y then x else y }

  /** Filtering keeps every recent record as often as it was there, and nothing else. */
  lemma {:induction false} SinceIsFilter(h: seq<Record>, cutoff: int, r: Record)
    ensures multiset(Since(h, cutoff))[r] == if r.completedAt >= cutoff then multiset(h)[r] else 0
  {
    if h != [] {
      SinceIsFilter(h[1..], cutoff, r);
      assert h == [h[0]] + h[1..];
      assert [] + Since(h[1..], cutoff) == Since(h[1..], cutoff);
    }
  }

  /** For any list: as many of the recent records as there is room for, from the front. */
  lemma {:induction false} PruneIsBounded(h: seq<Record>, limits: Limits, now: int)
    ensures var recent := Since(h, now - limits.retention);
      && |Prune(h, limits, now)| == Least(limits.maxItems, |recent|)
      && Prune(h, limits, now) == recent[..Least(limits.maxItems, |recent|)]
  {}

  /** P is the longest part of the list from its front that is short and recent enough. */
  predicate LongestFront(part: seq<Record>, h: seq<Record>, limits: Limits, now: int) {
    && part <= h && |part| <= limits.maxItems
    && (forall i :: 0 <= i < |part| ==> part[i].completedAt >= now - limits.retention)
    && (|part| == limits.maxItems || |part| == |h| || h[|part|].completedAt < now - limits.retention)
  }

  lemma {:induction false} SinceIsFront(h: seq<Record>, cutoff: int)
    requires Newest(h)
    ensures var recent := Since(h, cutoff);
      && recent <= h && (forall i :: 0 <= i < |recent| ==> recent[i].completedAt >= cutoff)
      && (|recent| < |h| ==> h[|recent|].completedAt < cutoff)
  {
    if h != [] {
      if h[0].completedAt < cutoff {
        SinceNone(h, cutoff);
      } else {
        SinceIsFront(h[1..], cutoff);
        assert h == [h[0]] + h[1..];
      }
    }
  }

  /** In a history, newest first, pruning keeps its longest front that is short and recent
      enough. */
  lemma {:induction false} PruneIsFront(h: seq<Record>, limits: Limits, now: int)
    requires Newest(h)
    ensures LongestFront(Prune(h, limits, now), h, limits, now)
  {
    SinceIsFront(h, now - limits.retention);
  }

  // ---------------------------------------------------------------- everything that completed

  /** The call completes an active request. */
  predicate Completes(s: Live, c: Call) { c.op.Complete? && c.appended && c.op.id in s.view.active }

  /** Every record that was ever completed, newest first, whatever was pruned or compacted. */
  function Completed(calls: seq<Call>, limits: Limits): seq<Record> {
    if calls == [] then [] else
      var past, c := calls[..|calls| - 1], calls[|calls| - 1];
      var s := Run(past, limits);
      if Completes(s, c)
      then [Closed(s.view.active[c.op.id], c.op.outcome, c.now)] + Completed(past, limits)
      else Completed(past, limits)
  }

  /** The store's history cannot be told from the full list at any later time. */
  ghost predicate Faithful(calls: seq<Call>, limits: Limits) {
    var s, full := Run(calls, limits), Completed(calls, limits);
    Orderly(full, s.clock) && LooksAlike(s.view.history, full, limits, s.clock)
  }

  lemma {:induction false} LaterAlike(h: seq<Record>, g: seq<Record>, limits: Limits, clock: int, now: int)
    requires LooksAlike(h, g, limits, clock) && clock <= now
    ensures LooksAlike(h, g, limits, now)
  {}

  lemma {:induction false} AlikeThrough(h: seq<Record>, g: seq<Record>, k: seq<Record>, limits: Limits, clock: int)
    requires LooksAlike(h, g, limits, clock) && LooksAlike(h, k, limits, clock)
    ensures LooksAlike(g, k, limits, clock)
  {
    forall later: int | clock <= later ensures Prune(g, limits, later) == Prune(k, limits, later) {
      assert Prune(h, limits, later) == Prune(g, limits, later) && Prune(h, limits, later) == Prune(k, limits, later);
    }
  }

  lemma {:induction false} OrderlyLater(h: seq<Record>, clock: int, now: int)
    requires Orderly(h, clock) && clock <= now
    ensures Orderly(h, now)
  {}

  lemma {:induction false} FrontAlike(h: seq<Record>, g: seq<Record>, r: Record, limits: Limits, clock: int, now: int)
    requires LooksAlike(h, g, limits, clock) && clock <= now
    ensures LooksAlike([r] + h, [r] + g, limits, now)
  {
    forall later: int | now <= later ensures Prune([r] + h, limits, later) == Prune([r] + g, limits, later) {
      assert Prune(h, limits, later) == Prune(g, limits, later);
      PruneFront(h, g, r, limits, later);
    }
  }

  /** One call, on the histories: h the store's, full the list of all completions. */
  lemma {:induction false} StepAlike(s: Live, c: Call, limits: Limits, full: seq<Record>)
    requires Recoverable(s, limits) && Timely(s, c) && !Completes(s, c)
    requires Orderly(full, s.clock) && LooksAlike(s.view.history, full, limits, s.clock)
    ensures LooksAlike(Step(s, c, limits).view.history, full, limits, c.now) && Step(s, c, limits).clock == c.now
  {
    LaterAlike(s.view.history, full, limits, s.clock, c.now);
    if c.op.PruneHistory? {
      PruneLooksAlike(s.view.history, full, limits, c.now, s.clock);
    } else if c.op.Reload? {
      var h := Replay(s.log).value.history;
      AlikeThrough(s.view.history, h, full, limits, s.clock);
      PruneLooksAlike(h, full, limits, c.now, s.clock);
    }
  }

  lemma {:induction false} CompleteAlike(s: Live, c: Call, limits: Limits, full: seq<Record>)
    requires Timely(s, c) && Completes(s, c)
    requires Orderly(full, s.clock) && LooksAlike(s.view.history, full, limits, s.clock)
    ensures var r := Closed(s.view.active[c.op.id], c.op.outcome, c.now);
      && Step(s, c, limits).view.history == [r] + s.view.history && Step(s, c, limits).clock == c.now
      && Orderly([r] + full, c.now) && LooksAlike([r] + s.view.history, [r] + full, limits, c.now)
  {
    var r := Closed(s.view.active[c.op.id], c.op.outcome, c.now);
    OrderlyLater(full, s.clock, c.now);
    OrderlyFront(r, full, c.now);
    FrontAlike(s.view.history, full, r, limits, s.clock, c.now);
  }

  lemma {:induction false} RunFaithful(calls: seq<Call>, limits: Limits)
    requires FairRun(calls, limits)
    ensures Faithful(calls, limits)
  {
    if calls != [] {
      var past, c := calls[..|calls| - 1], calls[|calls| - 1];
      RunFaithful(past, limits);
      RunRecoverable(past, limits);
      var s := Run(past, limits);
      if Completes(s, c) {
        CompleteAlike(s, c, limits, Completed(past, limits));
      } else {
        StepAlike(s, c, limits, Completed(past, limits));
        OrderlyLater(Completed(past, limits), s.clock, c.now);
      }
    }
  }

  /** The history is the newest of everything that ever completed: whenever it is read, after
      any run, it shows the longest front of that list that is within the retention and the
      maximum, restarts, compactions and earlier pruning notwithstanding. */
  lemma {:induction false} HistoryIsNewest(calls: seq<Call>, limits: Limits, now: int)
    requires FairRun(calls, limits) && Run(calls, limits).clock <= now
    ensures var shown := Prune(Run(calls, limits).view.history, limits, now);
      LongestFront(shown, Completed(calls, limits), limits, now)
  {
    RunFaithful(calls, limits);
    var s, full := Run(calls, limits), Completed(calls, limits);
    assert Prune(s.view.history, limits, now) == Prune(full, limits, now);
    PruneIsFront(full, limits, now);
  }

  /** A history that was just read or reloaded is within the maximum, in any run at all. */
  lemma {:induction false} HistoryIsBounded(calls: seq<Call>, c: Call, limits: Limits)
    requires c.op.PruneHistory? || (c.op.Reload? && Replay(Run(calls, limits).log).Some?)
    ensures |Run(calls + [c], limits).view.history| <= limits.maxItems
  {
    RunAppend(calls, c, limits);
  }

  // ---------------------------------------------------------------- active requests

  predicate StartsId(c: Call, id: string) { c.op.Start? && c.op.id == id && c.appended }

  predicate EndsId(c: Call, id: string) { c.op.Complete? && c.op.id == id && c.appended }

  /** The request was started, and not completed since. */
  ghost predicate Unfinished(calls: seq<Call>, id: string) {
    exists i :: 0 <= i < |calls| && StartsId(calls[i], id) && forall j :: i < j < |calls| ==> !EndsId(calls[j], id)
  }

  lemma {:induction false} UnfinishedNext(calls: seq<Call>, id: string)
    requires calls != []
    ensures var past, c := calls[..|calls| - 1], calls[|calls| - 1];
      Unfinished(calls, id) <==> StartsId(c, id) || (Unfinished(past, id) && !EndsId(c, id))
  {
    var n := |calls| - 1;
    var past, c := calls[..n], calls[n];
    if Unfinished(calls, id) && !StartsId(c, id) {
      var i :| 0 <= i < |calls| && StartsId(calls[i], id) && forall j :: i < j < |calls| ==> !EndsId(calls[j], id);
      assert StartsId(past[i], id) && !EndsId(calls[n], id);
    }
    if Unfinished(past, id) && !EndsId(c, id) {
      var i :| 0 <= i < |past| && StartsId(past[i], id) && forall j :: i < j < |past| ==> !EndsId(past[j], id);
      assert StartsId(calls[i], id);
      forall j | i < j < |calls| ensures !EndsId(calls[j], id) { if j < n { assert calls[j] == past[j]; } }
    }
    if StartsId(c, id) { assert StartsId(calls[n], id); }
  }

  lemma {:induction false} StepActive(s: Live, c: Call, limits: Limits, id: string)
    requires Recoverable(s, limits)
    ensures id in Step(s, c, limits).view.active <==> StartsId(c, id) || (id in s.view.active && !EndsId(c, id))
  {}

  /** Exactly the requests that were started and not completed are active, across restarts. */
  lemma {:induction false} ActiveIsUnfinished(calls: seq<Call>, limits: Limits, id: string)
    requires FairRun(calls, limits)
    ensures id in Run(calls, limits).view.active <==> Unfinished(calls, id)
  {
    if calls != [] {
      var past, c := calls[..|calls| - 1], calls[|calls| - 1];
      ActiveIsUnfinished(past, limits, id);
      RunRecoverable(past, limits);
      StepActive(Run(past, limits), c, limits, id);
      UnfinishedNext(calls, id);
    }
  }

  // ---------------------------------------------------------------- what a record tells

  predicate AddsTo(c: Call, id: string) { c.op.Add? && c.op.id == id && c.appended }

  /** An event without a time of its own is dated by the clock. */
  function Stamped(c: Call): Event
    requires c.op.Add?
  {
    if c.op.event.time == UNSET then c.op.event.(time := c.now) else c.op.event
  }

  /** The last start of a request. */
  function StartOf(calls: seq<Call>, id: string): Option<Call> {
    if calls == [] then None
    else if StartsId(calls[|calls| - 1], id) then Some(calls[|calls| - 1])
    else StartOf(calls[..|calls| - 1], id)
  }

  /** The events added to a request since its last start. */
  function EventsOf(calls: seq<Call>, id: string): seq<Event> {
    if calls == [] || StartsId(calls[|calls| - 1], id) then [] else
      var c := calls[|calls| - 1];
      EventsOf(calls[..|calls| - 1], id) + if AddsTo(c, id) then [Stamped(c)] else []
  }

  /** What a record tells of its request: who asked for what and when, and the trimming of
      everything that was added since. */
  ghost predicate Story(r: Record, start: Call, evs: seq<Event>) {
    && start.op.Start? && r.id == start.op.id && r.client == start.op.client && r.task == start.op.task
    && r.verb == start.op.verb && r.path == start.op.path && r.startedAt == start.now
    && Trimmed(Kept(r.events, r.dropped), Event(start.now, "received", 0, ""), evs)
    && Highest(evs, 0, r.attempt) && LastFailure(evs, "", r.lastError)
  }

  function Begun(c: Call): Record
    requires c.op.Start?
  {
    NewRecord(c.op.id, c.op.client, c.op.task, c.op.verb, c.op.path, c.now)
  }

  lemma {:induction false} StartOfStarts(calls: seq<Call>, id: string)
    ensures StartOf(calls, id).Some? ==> StartsId(StartOf(calls, id).value, id)
  {
    if calls != [] { StartOfStarts(calls[..|calls| - 1], id); }
  }

  lemma {:induction false} StepRecord(s: Live, c: Call, limits: Limits, id: string)
    requires Recoverable(s, limits) && id in Step(s, c, limits).view.active
    ensures StartsId(c, id) || id in s.view.active
    ensures Step(s, c, limits).view.active[id]
         == if StartsId(c, id) then Begun(c)
            else if AddsTo(c, id) then WithEvent(s.view.active[id], Stamped(c))
            else s.view.active[id]
  {}

  lemma {:induction false} ActiveFollows(calls: seq<Call>, limits: Limits, id: string)
    requires FairRun(calls, limits) && id in Run(calls, limits).view.active
    ensures StartOf(calls, id).Some? && StartOf(calls, id).value.op.Start?
    ensures Run(calls, limits).view.active[id] == WithEvents(Begun(StartOf(calls, id).value), EventsOf(calls, id))
  {
    assert calls != [];
    var past, c := calls[..|calls| - 1], calls[|calls| - 1];
    RunRecoverable(past, limits);
    StepRecord(Run(past, limits), c, limits, id);
    if !StartsId(c, id) {
      ActiveFollows(past, limits, id);
      var evs := EventsOf(past, id);
      if AddsTo(c, id) {
        assert (evs + [Stamped(c)])[..|evs|] == evs;
      } else {
        assert EventsOf(calls, id) == evs + [] == evs;
      }
    }
  }

  lemma {:induction false} FollowsTells(c: Call, evs: seq<Event>)
    requires c.op.Start?
    ensures Story(WithEvents(Begun(c), evs), c, evs) && WithEvents(Begun(c), evs).state == "queued"
  {
    RecordEvents(Begun(c), Event(c.now, "received", 0, ""), evs);
    KeepsIdentity(Begun(c), evs);
  }

  lemma {:induction false} KeepsIdentity(r: Record, evs: seq<Event>)
    ensures var s := WithEvents(r, evs);
      && s.id == r.id && s.client == r.client && s.task == r.task && s.verb == r.verb && s.path == r.path
      && s.startedAt == r.startedAt && s.state == r.state && s.completedAt == r.completedAt
  {
    if evs != [] { KeepsIdentity(r, evs[..|evs| - 1]); }
  }

  /** The record of an active request tells its story so far, across restarts. */
  lemma {:induction false} ActiveTells(calls: seq<Call>, limits: Limits, id: string)
    requires FairRun(calls, limits) && id in Run(calls, limits).view.active
    ensures StartOf(calls, id).Some?
    ensures Story(Run(calls, limits).view.active[id], StartOf(calls, id).value, EventsOf(calls, id))
  {
    ActiveFollows(calls, limits, id);
    FollowsTells(StartOf(calls, id).value, EventsOf(calls, id));
  }

  /** The record tells the story of the request that call n completed, and how it ended. */
  ghost predicate TellsOf(r: Record, calls: seq<Call>, n: nat) {
    && n < |calls| && EndsId(calls[n], r.id) && StartOf(calls[..n], r.id).Some?
    && Story(r, StartOf(calls[..n], r.id).value, EventsOf(calls[..n], r.id))
    && r.state == calls[n].op.outcome && r.completedAt == calls[n].now
  }

  lemma {:induction false} LastTells(calls: seq<Call>, limits: Limits)
    requires FairRun(calls, limits) && calls != []
    requires Completes(Run(calls[..|calls| - 1], limits), calls[|calls| - 1])
    ensures TellsOf(Completed(calls, limits)[0], calls, |calls| - 1)
  {
    var past, c := calls[..|calls| - 1], calls[|calls| - 1];
    ActiveTells(past, limits, c.op.id);
    StartOfStarts(past, c.op.id);
  }

  lemma {:induction false} TellsLater(r: Record, calls: seq<Call>, c: Call, n: nat)
    requires TellsOf(r, calls, n)
    ensures TellsOf(r, calls + [c], n)
  {
    assert (calls + [c])[..n] == calls[..n];
  }

  /** Every record that ever completed, and so every one the history shows, tells the story of a
      request from its start to the call that completed it, with the outcome of that call. */
  lemma {:induction false} CompletedTells(calls: seq<Call>, limits: Limits, r: Record)
    requires FairRun(calls, limits) && r in Completed(calls, limits)
    ensures exists n :: TellsOf(r, calls, n)
  {
    var past, c := calls[..|calls| - 1], calls[|calls| - 1];
    assert calls == past + [c];
    if Completes(Run(past, limits), c) && r == Completed(calls, limits)[0] {
      LastTells(calls, limits);
    } else {
      CompletedTells(past, limits, r);
      var n :| TellsOf(r, past, n);
      TellsLater(r, past, c, n);
    }
  }
}
