/** The history of releases against the journal it is replayed from. */
module ReleaseHistory {
  import opened Options
  import opened JournalLog
  import opened Release

  // ---------------------------------------------------------------- what the journal says was applied

  /** The records of all results, in journal order. */
  function Results(log: seq<Item<Event>>): seq<Record> {
    if log == [] then [] else
      var past, e := Results(log[..|log| - 1]), log[|log| - 1].payload;
      if IsResult(e) then past + [e.record] else past
  }

  /** The first result of each operation, in journal order. */
  function Distinct(log: seq<Item<Event>>): seq<Record> {
    if log == [] then [] else
      var past, e := Distinct(log[..|log| - 1]), log[|log| - 1].payload;
      if IsResult(e) && !Known(past, e.record) then past + [e.record] else past
  }

  function Last(records: seq<Record>): seq<Record> {
    if |records| > LIMIT then records[|records| - LIMIT..] else records
  }

  predicate OnePerOperation(records: seq<Record>) {
    forall i, j :: 0 <= i < j < |records| ==> OperationOf(records[i]) != OperationOf(records[j])
  }

  lemma {:induction false} HistoryStep(log: seq<Item<Event>>)
    requires log != []
    ensures var before, e := Replay(log[..|log| - 1]).history, log[|log| - 1].payload;
      Replay(log).history == if IsResult(e) then Remembered(before, e.record) else before
  {}

  lemma {:induction false} RememberedShape(history: seq<Record>, r: Record)
    requires |history| <= LIMIT && OnePerOperation(history)
    ensures |Remembered(history, r)| <= LIMIT && OnePerOperation(Remembered(history, r))
    ensures Known(Remembered(history, r), r)
    ensures forall q :: q in Remembered(history, r) ==> q in history || q == r
  {
    var h := Remembered(history, r);
    if !Known(history, r) {
      assert h[|h| - 1] == r;
      forall i | 0 <= i < |history| ensures OperationOf(history[i]) != OperationOf(r) {}
    }
  }

  /** For any journal: the history is bounded, has one record per operation, all of them results
      of the journal, and the operation of the latest result is among them. */
  lemma {:induction false} HistoryShape(log: seq<Item<Event>>)
    ensures |Replay(log).history| <= 50 && OnePerOperation(Replay(log).history)
    ensures forall q :: q in Replay(log).history ==> q in Results(log)
    ensures Results(log) != [] ==> Known(Replay(log).history, Results(log)[|Results(log)| - 1])
  {
    if log != [] {
      var e := log[|log| - 1].payload;
      HistoryShape(log[..|log| - 1]);
      HistoryStep(log);
      if IsResult(e) { RememberedShape(Replay(log[..|log| - 1]).history, e.record); }
    }
  }

  // ---------------------------------------------------------------- the last fifty

  /** The last entry repeats an operation that the history has already dropped. */
  predicate LateRepeat(log: seq<Item<Event>>) {
    log != [] &&
      var past, e := Distinct(log[..|log| - 1]), log[|log| - 1].payload;
      IsResult(e) && Known(past, e.record) && !Known(Last(past), e.record)
  }

  predicate NoLateRepeat(log: seq<Item<Event>>) {
    log == [] || (NoLateRepeat(log[..|log| - 1]) && !LateRepeat(log))
  }

  /** At every point of the journal the history was the latest distinct operations. */
  predicate AlwaysLatest(log: seq<Item<Event>>) {
    Replay(log).history == Last(Distinct(log)) && (log == [] || AlwaysLatest(log[..|log| - 1]))
  }

  lemma {:induction false} LastKnown(records: seq<Record>, r: Record)
    requires Known(Last(records), r)
    ensures Known(records, r)
  {
    var last := Last(records);
    var i :| 0 <= i < |last| && OperationOf(last[i]) == OperationOf(r);
    assert records[|records| - |last| + i] == last[i];
  }

  lemma {:induction false} NewResult(records: seq<Record>, r: Record)
    requires !Known(records, r)
    ensures Remembered(Last(records), r) == Last(records + [r])
  {
    if Known(Last(records), r) { LastKnown(records, r); }
  }

  lemma {:induction false} RepeatedResult(records: seq<Record>, r: Record)
    requires Known(records, r)
    ensures Remembered(Last(records), r) == Last(records) <==> Known(Last(records), r)
  {
    if !Known(Last(records), r) {
      var h := Remembered(Last(records), r);
      assert h[|h| - 1] == r;
      assert Known(h, r);
    }
  }

  lemma {:induction false} LatestStep(log: seq<Item<Event>>)
    requires log != [] && Replay(log[..|log| - 1]).history == Last(Distinct(log[..|log| - 1]))
    ensures Replay(log).history == Last(Distinct(log)) <==> !LateRepeat(log)
  {
    var past, e := Distinct(log[..|log| - 1]), log[|log| - 1].payload;
    HistoryStep(log);
    if IsResult(e) {
      if Known(past, e.record) { RepeatedResult(past, e.record); } else { NewResult(past, e.record); }
    }
  }

  /** The history is the last fifty distinct operations of the journal, at every point of it, if
      and only if no operation is repeated after fifty others have followed it. */
  lemma {:induction false} HistoryIsLatestIff(log: seq<Item<Event>>)
    ensures AlwaysLatest(log) <==> NoLateRepeat(log)
  {
    if log != [] {
      HistoryIsLatestIff(log[..|log| - 1]);
      if NoLateRepeat(log[..|log| - 1]) { LatestStep(log); }
    }
  }

  // ---------------------------------------------------------------- an operation that comes back

  function Stamp(i: nat): string { seq(i, _ => 'x') }

  function Nth(i: nat): Record { Record("", Stamp(i)) }

  /** So many releases, all different. */
  function Many(n: nat): seq<Item<Event>> {
    seq(n, i requires 0 <= i < n => Item(0, RevisionOf(""), Published(Nth(i))))
  }

  lemma {:induction false} NthDiffer(i: nat, j: nat)
    requires i != j
    ensures OperationOf(Nth(i)) != OperationOf(Nth(j))
  {
    assert |OperationOf(Nth(i))| == 8 + i && |OperationOf(Nth(j))| == 8 + j;
  }

  lemma {:induction false} ManyDistinct(n: nat)
    ensures Distinct(Many(n)) == seq(n, i requires 0 <= i < n => Nth(i)) && NoLateRepeat(Many(n))
  {
    if n > 0 {
      ManyDistinct(n - 1);
      var log := Many(n);
      assert log[..n - 1] == Many(n - 1);
      var past := Distinct(Many(n - 1));
      forall i | 0 <= i < |past| ensures OperationOf(past[i]) != OperationOf(Nth(n - 1)) { NthDiffer(i, n - 1); }
    }
  }

  /** The first of more than fifty releases is dropped; recorded once more, it comes back as the
      latest. */
  lemma {:induction false} DroppedOperationReturns(n: nat)
    requires n > LIMIT
    ensures var log := Many(n) + [Item(0, RevisionOf(""), Published(Nth(0)))];
      && !Known(Replay(Many(n)).history, Nth(0))
      && Replay(log).history != [] && Replay(log).history[|Replay(log).history| - 1] == Nth(0)
      && LateRepeat(log)
  {
    var item := Item(0, RevisionOf(""), Published(Nth(0)));
    var log := Many(n) + [item];
    ManyDistinct(n);
    HistoryIsLatestIff(Many(n));
    var past := Distinct(Many(n));
    var last := Last(past);
    forall i | 0 <= i < |last| ensures OperationOf(last[i]) != OperationOf(Nth(0)) {
      assert last[i] == Nth(n - LIMIT + i);
      NthDiffer(n - LIMIT + i, 0);
    }
    assert past[0] == Nth(0);
    assert log[..n] == Many(n) && log[n] == item;
    ReplayAppend(Many(n), item);
    var h := Replay(log).history;
    assert h == Remembered(last, Nth(0)) && h[|h| - 1] == Nth(0);
  }

  // ---------------------------------------------------------------- what is pending, what is drafted

  /** The operation was prepared, and nothing was said of it since. */
  ghost predicate Unresolved(log: seq<Item<Event>>, op: string) {
    exists i :: && 0 <= i < |log| && log[i].payload.Prepared? && Concerns(log[i].payload) == Some(op)
                && forall j :: i < j < |log| ==> Concerns(log[j].payload) != Some(op)
  }

  lemma {:induction false} UnresolvedNext(log: seq<Item<Event>>, item: Item<Event>, op: string)
    ensures Unresolved(log + [item], op)
       <==> if Concerns(item.payload) == Some(op) then item.payload.Prepared? else Unresolved(log, op)
  {
    var more := log + [item];
    assert more[|log|] == item && forall i :: 0 <= i < |log| ==> more[i] == log[i];
    if Unresolved(log, op) && Concerns(item.payload) != Some(op) {
      var i :| && 0 <= i < |log| && log[i].payload.Prepared? && Concerns(log[i].payload) == Some(op)
               && forall j :: i < j < |log| ==> Concerns(log[j].payload) != Some(op);
      assert more[i].payload.Prepared?;
    }
    if Concerns(item.payload) == Some(op) && item.payload.Prepared? { assert more[|log|].payload.Prepared?; }
    if Unresolved(more, op) && Concerns(item.payload) != Some(op) {
      var i :| && 0 <= i < |more| && more[i].payload.Prepared? && Concerns(more[i].payload) == Some(op)
               && forall j :: i < j < |more| ==> Concerns(more[j].payload) != Some(op);
      assert log[i].payload.Prepared?;
    }
  }

  predicate Saves(e: Event, policy: string) { e == DraftSaved(policy) }

  /** The entry replaces the draft, or is a result, which ends it. */
  predicate EndsDraft(e: Event) { e.DraftSaved? || e.Published? || e.RolledBack? }

  /** The policy was saved as a draft, and since then there was neither another draft nor a result. */
  predicate Drafted(log: seq<Item<Event>>, policy: string) {
    exists i :: 0 <= i < |log| && Saves(log[i].payload, policy)
                && forall j :: i < j < |log| ==> !EndsDraft(log[j].payload)
  }

  lemma {:induction false} DraftedNext(log: seq<Item<Event>>, item: Item<Event>, policy: string)
    ensures Drafted(log + [item], policy)
       <==> if EndsDraft(item.payload) then Saves(item.payload, policy) else Drafted(log, policy)
  {
    var more := log + [item];
    assert more[|log|] == item && forall i :: 0 <= i < |log| ==> more[i] == log[i];
    if Drafted(log, policy) && !EndsDraft(item.payload) {
      var i :| 0 <= i < |log| && Saves(log[i].payload, policy)
               && forall j :: i < j < |log| ==> !EndsDraft(log[j].payload);
      assert Saves(more[i].payload, policy);
    }
    if Saves(item.payload, policy) { assert Saves(more[|log|].payload, policy); }
    if Drafted(more, policy) && !EndsDraft(item.payload) {
      var i :| 0 <= i < |more| && Saves(more[i].payload, policy)
               && forall j :: i < j < |more| ==> !EndsDraft(more[j].payload);
      assert Saves(log[i].payload, policy);
    }
  }

  /** The draft is the last one saved, unless a release or rollback was applied since. */
  lemma {:induction false} DraftIsLastSaved(log: seq<Item<Event>>, policy: string)
    ensures Replay(log).draft == Some(policy) <==> Drafted(log, policy)
  {
    if log != [] {
      var past, last := log[..|log| - 1], log[|log| - 1];
      assert log == past + [last];
      DraftIsLastSaved(past, policy);
      DraftedNext(past, last, policy);
    }
  }

  /** Exactly the operations that were prepared and neither applied nor aborted since are
      pending. */
  lemma {:induction false} PendingIsUnresolved(log: seq<Item<Event>>, op: string)
    ensures op in Replay(log).pending <==> Unresolved(log, op)
  {
    if log != [] {
      var past, last := log[..|log| - 1], log[|log| - 1];
      assert log == past + [last];
      PendingIsUnresolved(past, op);
      PendingStep(past, last, op);
      UnresolvedNext(past, last, op);
    }
  }
}
