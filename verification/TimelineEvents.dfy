/** The bounded event list of one request. */
module TimelineEvents {

  datatype Event = Event(time: int, kind: string, attempt: int, message: string)

  const MAX_EVENTS := 100

  /** Operator decisions and completion, which the trimming spares. */
  predicate Critical(e: Event) {
    e.kind == "uncertain" || "uncertain_" <= e.kind || e.kind == "completed"
  }

  /** The events of one class, in order. */
  function Class(es: seq<Event>, critical: bool): seq<Event> {
    if es == [] then [] else
      var before := Class(es[..|es| - 1], critical);
      if Critical(es[|es| - 1]) == critical then before + [es[|es| - 1]] else before
  }

  predicate RoutineBefore(es: seq<Event>, n: int) {
    exists i :: 1 <= i < n && i < |es| && !Critical(es[i])
  }

  /** The event to discard from an overlong list: the oldest routine one between the anchor
      and the newest, or else the oldest after the anchor. */
  function Victim(es: seq<Event>): (v: nat)
    requires |es| >= 3
    ensures 1 <= v < |es| - 1
    ensures RoutineBefore(es, |es| - 1) ==> !Critical(es[v]) && forall i :: 1 <= i < v ==> Critical(es[i])
    ensures !RoutineBefore(es, |es| - 1) ==> v == 1 && Critical(es[1])
  {
    if RoutineBefore(es, |es| - 1) then FirstRoutine(es, 1) else
      assert Critical(es[1]);
      1
  }

  function FirstRoutine(es: seq<Event>, from: nat): (v: nat)
    requires 1 <= from < |es| - 1 && RoutineBefore(es, |es| - 1)
    requires forall i :: 1 <= i < from ==> Critical(es[i])
    ensures from <= v < |es| - 1 && !Critical(es[v]) && forall i :: 1 <= i < v ==> Critical(es[i])
    decreases |es| - from
  {
    if !Critical(es[from]) then from else
      assert from + 1 < |es| - 1 by {
        var i :| 1 <= i < |es| - 1 && !Critical(es[i]);
      }
      FirstRoutine(es, from + 1)
  }

  function Removed(es: seq<Event>, v: nat): seq<Event>
    requires v < |es|
  {
    es[..v] + es[v + 1..]
  }

  /** One more event; the flag says whether an old one was discarded. */
  function Added(es: seq<Event>, e: Event): (seq<Event>, bool)
  {
    var longer := es + [e];
    if |longer| > MAX_EVENTS then (Removed(longer, Victim(longer)), true) else (longer, false)
  }

  method AddEvent(es: seq<Event>, e: Event) returns (kept: seq<Event>, dropped: bool)
    ensures (kept, dropped) == Added(es, e)
  {
    kept := es + [e];
    dropped := |kept| > MAX_EVENTS;
    if dropped {
      var drop := 1;
      var index := 1;
      while index < |kept| - 1
        invariant 1 <= index <= |kept| - 1 && drop == 1
        invariant forall i :: 1 <= i < index ==> Critical(kept[i])
      {
        if !Critical(kept[index]) {
          drop := index;
          break;
        }
        index := index + 1;
      }
      assert drop == Victim(kept);
      kept := kept[..drop] + kept[drop + 1..];
    }
  }

  // ---------------------------------------------------------------- any number of events

  datatype Kept = Kept(events: seq<Event>, dropped: nat)

  function AddAll(anchor: Event, evs: seq<Event>): Kept {
    if evs == [] then Kept([anchor], 0) else
      var before := AddAll(anchor, evs[..|evs| - 1]);
      var (events, dropped) := Added(before.events, evs[|evs| - 1]);
      Kept(events, before.dropped + if dropped then 1 else 0)
  }

  /** How xs picks out some of ys, in order. */
  predicate Subsequence(xs: seq<Event>, ys: seq<Event>) {
    if xs == [] then true
    else if ys == [] then false
    else if xs[|xs| - 1] == ys[|ys| - 1] && Subsequence(xs[..|xs| - 1], ys[..|ys| - 1]) then true
    else Subsequence(xs, ys[..|ys| - 1])
  }

  lemma {:induction false} SubsequenceLonger(xs: seq<Event>, ys: seq<Event>, y: Event)
    requires Subsequence(xs, ys)
    ensures Subsequence(xs, ys + [y]) && Subsequence(xs + [y], ys + [y])
  {
    assert (ys + [y])[..|ys|] == ys && (xs + [y])[..|xs|] == xs;
  }

  lemma {:induction false} SubsequenceRemoved(xs: seq<Event>, ys: seq<Event>, v: nat)
    requires Subsequence(xs, ys) && v < |xs|
    ensures Subsequence(Removed(xs, v), ys)
    decreases |xs| + |ys|
  {
    var n, m := |xs| - 1, |ys| - 1;
    if xs[n] == ys[m] && Subsequence(xs[..n], ys[..m]) {
      if v == n {
        assert Removed(xs, v) == xs[..n];
        SubsequenceDropLast(xs[..n], ys);
      } else {
        SubsequenceRemoved(xs[..n], ys[..m], v);
        assert Removed(xs, v) == Removed(xs[..n], v) + [ys[m]];
        assert ys == ys[..m] + [ys[m]];
        SubsequenceLonger(Removed(xs[..n], v), ys[..m], ys[m]);
      }
    } else {
      SubsequenceRemoved(xs, ys[..m], v);
      assert ys == ys[..m] + [ys[m]];
      SubsequenceLonger(Removed(xs, v), ys[..m], ys[m]);
    }
  }

  lemma {:induction false} SubsequenceDropLast(xs: seq<Event>, ys: seq<Event>)
    requires ys != [] && Subsequence(xs, ys[..|ys| - 1])
    ensures Subsequence(xs, ys)
  {
    assert ys == ys[..|ys| - 1] + [ys[|ys| - 1]];
    SubsequenceLonger(xs, ys[..|ys| - 1], ys[|ys| - 1]);
  }

  lemma {:induction false} ClassAppend(es: seq<Event>, e: Event, critical: bool)
    ensures Class(es + [e], critical) == if Critical(e) == critical then Class(es, critical) + [e] else Class(es,
                                                                                                              critical)
  {
    assert (es + [e])[..|es|] == es;
  }

  /** Taking out the first event of a class takes out the first of that class and leaves the
      other class alone. */
  lemma {:induction false} ClassRemoved(es: seq<Event>, v: nat, critical: bool)
    requires v < |es| && Critical(es[v]) == critical && forall i :: 0 <= i < v ==> Critical(es[i]) != critical
    ensures Class(es, critical) != []
    ensures Class(Removed(es, v), critical) == Class(es, critical)[1..]
  {
    var n := |es| - 1;
    if v == n {
      LastRemoved(es, critical);
    } else {
      ClassRemoved(es[..n], v, critical);
      RemovedEarlier(es, es[..n], es[n], v, critical);
    }
  }

  /** One more event behind a list and behind what was left of it. */
  lemma {:induction false} RemovedEarlier(es: seq<Event>, past: seq<Event>, last: Event, v: nat, critical: bool)
    requires es == past + [last] && v < |past|
    requires Class(past, critical) != [] && Class(Removed(past, v), critical) == Class(past, critical)[1..]
    ensures Class(es, critical) != [] && Class(Removed(es, v), critical) == Class(es, critical)[1..]
  {
    RemovedAppend(past, Removed(past, v), last, critical);
    assert Removed(es, v) == Removed(past, v) + [last];
  }

  lemma {:induction false} RemovedAppend(past: seq<Event>, left: seq<Event>, e: Event, critical: bool)
    requires Class(past, critical) != [] && Class(left, critical) == Class(past, critical)[1..]
    ensures Class(past + [e], critical) != [] && Class(left + [e], critical) == Class(past + [e], critical)[1..]
  {
    ClassAppend(past, e, critical);
    ClassAppend(left, e, critical);
    TailAppend(Class(past, critical), e);
  }

  lemma {:induction false} TailAppend(xs: seq<Event>, e: Event)
    requires xs != []
    ensures (xs + [e])[1..] == xs[1..] + [e]
  {}

  lemma {:induction false} LastRemoved(es: seq<Event>, critical: bool)
    requires es != [] && Critical(es[|es| - 1]) == critical
    requires forall i :: 0 <= i < |es| - 1 ==> Critical(es[i]) != critical
    ensures Class(es, critical) != []
    ensures Class(Removed(es, |es| - 1), critical) == Class(es, critical)[1..]
  {
    var past := es[..|es| - 1];
    assert Removed(es, |es| - 1) == past;
    NoneOfClass(past, critical);
    assert Class(es, critical) == [] + [es[|es| - 1]];
  }

  lemma {:induction false} OtherClassRemoved(es: seq<Event>, v: nat, critical: bool)
    requires v < |es| && Critical(es[v]) != critical
    ensures Class(Removed(es, v), critical) == Class(es, critical)
  {
    var n := |es| - 1;
    if v == n {
      assert Removed(es, v) == es[..n];
    } else {
      OtherClassRemoved(es[..n], v, critical);
      assert Removed(es, v) == Removed(es[..n], v) + [es[n]];
      ClassAppend(Removed(es[..n], v), es[n], critical);
    }
  }

  lemma {:induction false} NoneOfClass(es: seq<Event>, critical: bool)
    requires forall i :: 0 <= i < |es| ==> Critical(es[i]) != critical
    ensures Class(es, critical) == []
  {
    if es != [] { NoneOfClass(es[..|es| - 1], critical); }
  }

  lemma {:induction false} ClassSizes(es: seq<Event>)
    ensures |Class(es, true)| + |Class(es, false)| == |es|
  {
    if es != [] { ClassSizes(es[..|es| - 1]); }
  }

  lemma {:induction false} AllCritical(es: seq<Event>)
    requires |Class(es, false)| == 0
    ensures forall i :: 0 <= i < |es| ==> Critical(es[i])
  {
    if es != [] { AllCritical(es[..|es| - 1]); }
  }

  predicate Suffix(xs: seq<Event>, ys: seq<Event>) { |xs| <= |ys| && xs == ys[|ys| - |xs|..] }

  lemma {:induction false} SuffixLonger(xs: seq<Event>, ys: seq<Event>, y: Event)
    requires Suffix(xs, ys)
    ensures Suffix(xs + [y], ys + [y])
  {
    assert (ys + [y])[|ys| - |xs|..] == xs + [y];
  }

  lemma {:induction false} SuffixShorter(xs: seq<Event>, ys: seq<Event>)
    requires Suffix(xs, ys) && xs != []
    ensures Suffix(xs[1..], ys)
  {
  }

  /** What the kept list is, in terms of everything that was ever added: the anchor, then a
      selection in order whose events of each class are the most recent of that class. */
  ghost predicate Trimmed(k: Kept, anchor: Event, evs: seq<Event>) {
    && |k.events| == (if |evs| < MAX_EVENTS then |evs| + 1 else MAX_EVENTS)
    && |k.events| + k.dropped == 1 + |evs|
    && k.events[0] == anchor
    && (evs != [] ==> k.events[|k.events| - 1] == evs[|evs| - 1])
    && Subsequence(k.events[1..], evs)
    && MostRecent(k.events[1..], evs, true)
    && MostRecent(k.events[1..], evs, false)
  }

  ghost predicate MostRecent(rest: seq<Event>, evs: seq<Event>, critical: bool) {
    Suffix(Class(rest, critical), Class(evs, critical))
  }

  lemma {:induction false} RecentLonger(rest: seq<Event>, evs: seq<Event>, e: Event, critical: bool)
    requires MostRecent(rest, evs, critical)
    ensures MostRecent(rest + [e], evs + [e], critical)
  {
    ClassAppend(rest, e, critical);
    ClassAppend(evs, e, critical);
    SuffixLonger(Class(rest, critical), Class(evs, critical), e);
  }

  lemma {:induction false} RecentRemoved(rest: seq<Event>, evs: seq<Event>, v: nat, critical: bool)
    requires MostRecent(rest, evs, critical) && v < |rest|
    requires forall i :: 0 <= i < v ==> Critical(rest[i]) != Critical(rest[v])
    ensures MostRecent(Removed(rest, v), evs, critical)
  {
    if Critical(rest[v]) == critical {
      ClassRemoved(rest, v, critical);
      SuffixShorter(Class(rest, critical), Class(evs, critical));
    } else {
      OtherClassRemoved(rest, v, critical);
    }
  }

  lemma {:induction false} GrowTrimmed(es: seq<Event>, evs: seq<Event>, e: Event)
    requires |es| >= 1 && Subsequence(es[1..], evs) && MostRecent(es[1..], evs, true) && MostRecent(es[1..], evs, false)
    ensures Subsequence((es + [e])[1..], evs + [e])
    ensures MostRecent((es + [e])[1..], evs + [e], true) && MostRecent((es + [e])[1..], evs + [e], false)
  {
    assert (es + [e])[1..] == es[1..] + [e];
    SubsequenceLonger(es[1..], evs, e);
    RecentLonger(es[1..], evs, e, true);
    RecentLonger(es[1..], evs, e, false);
  }

  lemma {:induction false} DropTrimmed(es: seq<Event>, evs: seq<Event>)
    requires |es| >= 3 && Subsequence(es[1..], evs) && MostRecent(es[1..], evs, true) && MostRecent(es[1..], evs, false)
    ensures Subsequence(Removed(es, Victim(es))[1..], evs)
    ensures MostRecent(Removed(es, Victim(es))[1..], evs, true) && MostRecent(Removed(es, Victim(es))[1..], evs, false)
  {
    var v := Victim(es);
    assert Removed(es, v)[1..] == Removed(es[1..], v - 1);
    SubsequenceRemoved(es[1..], evs, v - 1);
    RecentRemoved(es[1..], evs, v - 1, true);
    RecentRemoved(es[1..], evs, v - 1, false);
  }

  /** For any sequence of events, the bounded list is the declared trimming of it. */
  lemma {:induction false} AddAllTrims(anchor: Event, evs: seq<Event>)
    ensures Trimmed(AddAll(anchor, evs), anchor, evs)
  {
    if evs != [] {
      var past, e := evs[..|evs| - 1], evs[|evs| - 1];
      AddAllTrims(anchor, past);
      var before := AddAll(anchor, past).events;
      assert evs == past + [e];
      GrowTrimmed(before, past, e);
      if |before + [e]| > MAX_EVENTS { DropTrimmed(before + [e], evs); }
    } else {
      assert [anchor][1..] == [];
    }
  }

  ghost predicate NoCriticalLost(anchor: Event, evs: seq<Event>) {
    var k := AddAll(anchor, evs).events;
    k != [] && Class(k[1..], true) == Class(evs, true)
  }

  lemma {:induction false} LossByCount(anchor: Event, evs: seq<Event>)
    ensures |AddAll(anchor, evs).events| >= 1
    ensures |Class(AddAll(anchor, evs).events[1..], true)| <= |Class(evs, true)|
    ensures NoCriticalLost(anchor, evs) <==> |Class(AddAll(anchor, evs).events[1..], true)| == |Class(evs, true)|
  {
    AddAllTrims(anchor, evs);
  }

  lemma {:induction false} AllCriticalClass(es: seq<Event>)
    requires forall i :: 0 <= i < |es| ==> Critical(es[i])
    ensures |Class(es, true)| == |es|
  {
    ClassSizes(es);
    NoneOfClass(es, false);
  }

  /** A critical event is discarded only from a list that is critical throughout. */
  lemma {:induction false} CriticalVictim(es: seq<Event>)
    requires |es| >= 3
    ensures Critical(es[Victim(es)]) <==> |Class(es[1..|es| - 1], true)| == |es| - 2
  {
    var inner := es[1..|es| - 1];
    ClassSizes(inner);
    if |Class(inner, true)| == |es| - 2 {
      AllCritical(inner);
      var v := Victim(es);
      assert inner[v - 1] == es[v];
    } else if Critical(es[Victim(es)]) {
      forall i | 0 <= i < |inner| ensures Critical(inner[i]) { assert inner[i] == es[i + 1]; }
      AllCriticalClass(inner);
      assert false;
    }
  }

  lemma {:induction false} CriticalCountAfterDrop(es: seq<Event>)
    requires |es| >= 3
    ensures |Class(Removed(es, Victim(es))[1..], true)|
         == |Class(es[1..], true)| - if Critical(es[Victim(es)]) then 1 else 0
  {
    var v := Victim(es);
    assert Removed(es, v)[1..] == Removed(es[1..], v - 1);
    if Critical(es[v]) { ClassRemoved(es[1..], v - 1, true); }
    else { OtherClassRemoved(es[1..], v - 1, true); }
  }

  lemma {:induction false} ClassGrows(es: seq<Event>)
    requires es != []
    ensures |Class(es[..|es| - 1], true)| <= |Class(es, true)|
  {
  }

  /** One addition to a full list. */
  lemma {:induction false} CriticalCountStep(before: seq<Event>, e: Event)
    requires |before| == MAX_EVENTS
    ensures |Class(Added(before, e).0[1..], true)| == |Class(before[1..] + [e], true)|
      - if |Class(before[1..], true)| == MAX_EVENTS - 1 then 1 else 0
  {
    var longer := before + [e];
    assert longer[1..] == before[1..] + [e];
    assert longer[1..|longer| - 1] == before[1..];
    CriticalVictim(longer);
    CriticalCountAfterDrop(longer);
  }

  /** Exactly when every critical event survives: as long as the list never overflowed while
      more than 98 critical events had preceded the newest. */
  lemma {:induction false} CriticalKeptIff(anchor: Event, evs: seq<Event>)
    ensures NoCriticalLost(anchor, evs)
      <==> |evs| < MAX_EVENTS || |Class(evs[..|evs| - 1], true)| <= MAX_EVENTS - 2
  {
    if evs != [] {
      var past := evs[..|evs| - 1];
      CriticalKeptIff(anchor, past);
      CriticalKeptStep(anchor, past, evs[|evs| - 1], evs);
    } else {
      assert [anchor][1..] == [];
    }
  }

  lemma {:induction false} CriticalKeptStep(anchor: Event, past: seq<Event>, e: Event, evs: seq<Event>)
    requires evs == past + [e] && evs[..|evs| - 1] == past
    requires NoCriticalLost(anchor, past)
      <==> |past| < MAX_EVENTS || |Class(past[..|past| - 1], true)| <= MAX_EVENTS - 2
    ensures NoCriticalLost(anchor, evs)
      <==> |evs| < MAX_EVENTS || |Class(past, true)| <= MAX_EVENTS - 2
  {
    LossByCount(anchor, past);
    LossByCount(anchor, evs);
    AddAllTrims(anchor, past);
    var before := AddAll(anchor, past).events;
    ClassAppend(before[1..], e, true);
    ClassAppend(past, e, true);
    if |before| < MAX_EVENTS {
      assert (before + [e])[1..] == before[1..] + [e];
    } else {
      CriticalCountStep(before, e);
      ClassSizes(before[1..]);
      if past != [] { ClassGrows(past); }
      assert AddAll(anchor, evs).events == Added(before, e).0;
    }
  }
}
