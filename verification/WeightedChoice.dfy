/** The weighted choice among the available targets of the best priority. */
module WeightedChoice {

  datatype Target = Target(id: string, priority: int, weight: int, maxActive: int, domain: string)

  function Weight(t: Target): (w: nat)
    ensures w >= 1
  {
    if t.weight > 1 then t.weight else 1
  }

  function TotalWeight(group: seq<Target>): nat {
    if group == [] then 0 else TotalWeight(group[..|group| - 1]) + Weight(group[|group| - 1])
  }

  /** Smallest priority number, by a running minimum. */
  function BestPriority(ts: seq<Target>): int
    requires ts != []
  {
    if |ts| == 1 then ts[0].priority else
      var best := BestPriority(ts[..|ts| - 1]);
      if ts[|ts| - 1].priority < best then ts[|ts| - 1].priority else best
  }

  lemma {:induction false} BestIsLeast(ts: seq<Target>)
    requires ts != []
    ensures forall t :: t in ts ==> BestPriority(ts) <= t.priority
    ensures exists t :: t in ts && t.priority == BestPriority(ts)
  {
    if |ts| > 1 {
      BestIsLeast(ts[..|ts| - 1]);
      assert ts == ts[..|ts| - 1] + [ts[|ts| - 1]];
    } else {
      assert ts[0] in ts;
    }
  }

  function WithPriority(ts: seq<Target>, p: int): (r: seq<Target>)
    ensures forall t :: t in r <==> t in ts && t.priority == p
  {
    if ts == [] then [] else
      assert ts == ts[..|ts| - 1] + [ts[|ts| - 1]];
      var rest := WithPriority(ts[..|ts| - 1], p);
      if ts[|ts| - 1].priority == p then rest + [ts[|ts| - 1]] else rest
  }

  /** The lowest-priority-number group, in order. */
  function Group(ts: seq<Target>): seq<Target>
    requires ts != []
  {
    WithPriority(ts, BestPriority(ts))
  }

  /** The member whose stretch of the wheel contains the point. */
  function Pick(group: seq<Target>, point: nat): (k: nat)
    requires group != [] && point < TotalWeight(group)
    ensures k < |group|
    ensures TotalWeight(group[..k]) <= point < TotalWeight(group[..k + 1])
  {
    var n := |group| - 1;
    assert group[..n + 1] == group;
    if point < TotalWeight(group[..n]) then
      var k := Pick(group[..n], point);
      assert group[..n][..k] == group[..k] && group[..n][..k + 1] == group[..k + 1];
      k
    else n
  }

  const TWO_64 := 0x1_0000_0000_0000_0000

  /** Position of the cursor on a wheel of w points: the remainder, by going round. */
  function Wrap(cursor: nat, w: nat): (p: nat)
    requires w > 0
    ensures p < w
    decreases cursor
  {
    if cursor < w then cursor else Wrap(cursor - w, w)
  }

  lemma {:induction false} WrapIsRemainder(cursor: nat, w: nat)
    requires w > 0
    ensures Wrap(cursor, w) == cursor % w
    decreases cursor
  {
    if cursor >= w {
      WrapIsRemainder(cursor - w, w);
      ModPlus(cursor - w, w);
    }
  }

  lemma {:induction false} ModPlus(a: nat, w: nat)
    requires w > 0
    ensures (a + w) % w == a % w
  {
    var q, r := a / w, a % w;
    assert a == q * w + r;
    assert (q + 1) * w == q * w + w;
    ModUnique(a + w, w, q + 1, r);
  }

  lemma {:induction false} Grows(d: int, w: int)
    requires d >= 1 && w > 0
    ensures d * w >= w
  {}

  lemma {:induction false} Differs(a: int, b: int, w: int)
    ensures (a - b) * w == a * w - b * w
  {}

  lemma {:induction false} ModUnique(x: nat, w: nat, q: nat, r: nat)
    requires w > 0 && r < w && x == q * w + r
    ensures x % w == r
  {
    var quotient, remainder := x / w, x % w;
    assert x == quotient * w + remainder;
    if q < quotient {
      Differs(quotient, q, w);
      Grows(quotient - q, w);
    } else if quotient < q {
      Differs(q, quotient, w);
      Grows(q - quotient, w);
    }
  }

  /** The choice at one cursor position. */
  function ChoiceAt(group: seq<Target>, cursor: nat): nat
    requires group != [] && TotalWeight(group) > 0
  {
    Pick(group, Wrap(cursor, TotalWeight(group)))
  }

  lemma {:induction false} GroupHasWeight(group: seq<Target>)
    requires group != []
    ensures TotalWeight(group) > 0
  {}

  // ---------------------------------------------------------------- fairness

  /** How often k comes up at n consecutive positions. */
  ghost function Hits(choice: nat -> nat, cursor: nat, n: nat, k: nat): nat {
    if n == 0 then 0 else Hits(choice, cursor, n - 1, k) + (if choice(cursor + n - 1) == k then 1 else 0)
  }

  ghost function Wheel(group: seq<Target>): nat -> nat
    requires group != [] && TotalWeight(group) > 0
  {
    (cursor: nat) => ChoiceAt(group, cursor)
  }

  /** How many of n consecutive choices from the cursor on pick member k. */
  ghost function Picks(group: seq<Target>, cursor: nat, n: nat, k: nat): nat
    requires group != [] && TotalWeight(group) > 0
  {
    Hits(Wheel(group), cursor, n, k)
  }

  lemma {:induction false} HitsFirst(choice: nat -> nat, cursor: nat, n: nat, k: nat)
    ensures Hits(choice, cursor, n + 1, k) == (if choice(cursor) == k then 1 else 0) + Hits(choice, cursor + 1, n, k)
  {
    if n > 0 { HitsFirst(choice, cursor, n - 1, k); }
  }

  lemma {:induction false} HitsShift(choice: nat -> nat, cursor: nat, w: nat, k: nat)
    requires w > 0 && choice(cursor + w) == choice(cursor)
    ensures Hits(choice, cursor + 1, w, k) == Hits(choice, cursor, w, k)
  {
    HitsFirst(choice, cursor, w - 1, k);
  }

  /** A value chosen on one stretch only comes up once for every position of it. */
  lemma {:induction false} HitsStretch(choice: nat -> nat, n: nat, lo: int, hi: int, k: nat)
    requires 0 <= lo <= hi && forall c: nat :: c < n ==> (choice(c) == k <==> lo <= c < hi)
    ensures Hits(choice, 0, n, k) == Clip(n, lo, hi) - lo
  {
    if n > 0 { HitsStretch(choice, n - 1, lo, hi, k); }
  }

  lemma {:induction false} PrefixWeights(group: seq<Target>, i: nat, j: nat)
    requires i <= j <= |group|
    ensures TotalWeight(group[..i]) <= TotalWeight(group[..j])
    ensures i < j ==> TotalWeight(group[..i]) < TotalWeight(group[..j])
    decreases j - i
  {
    if i < j {
      PrefixWeights(group, i, j - 1);
      assert group[..j][..j - 1] == group[..j - 1];
    }
  }

  /** A point lies on exactly one stretch. */
  lemma {:induction false} PickIsUnique(group: seq<Target>, point: nat, k: nat)
    requires group != [] && point < TotalWeight(group) && k < |group|
    ensures Pick(group, point) == k <==> TotalWeight(group[..k]) <= point < TotalWeight(group[..k + 1])
  {
    var j := Pick(group, point);
    if j < k { PrefixWeights(group, j + 1, k); }
    if k < j { PrefixWeights(group, k + 1, j); }
  }

  function Clip(x: int, low: int, high: int): int {
    if x < low then low else if x > high then high else x
  }

  /** From the start of the wheel, member k is picked once for every point of its stretch. */
  lemma {:induction false} PicksFromStart(group: seq<Target>, n: nat, k: nat)
    requires group != [] && k < |group| && TotalWeight(group) > 0 && n <= TotalWeight(group)
    ensures Picks(group, 0, n, k)
         == Clip(n, TotalWeight(group[..k]), TotalWeight(group[..k + 1])) - TotalWeight(group[..k])
  {
    var lo, hi := TotalWeight(group[..k]), TotalWeight(group[..k + 1]);
    var wheel := Wheel(group);
    PrefixWeights(group, k, k + 1);
    forall c: nat | c < n ensures wheel(c) == k <==> lo <= c < hi { ChosenOnStretch(group, c, k); }
    HitsStretch(wheel, n, lo, hi, k);
  }

  lemma {:induction false} ChosenOnStretch(group: seq<Target>, c: nat, k: nat)
    requires group != [] && k < |group| && c < TotalWeight(group)
    ensures ChoiceAt(group, c) == k <==> TotalWeight(group[..k]) <= c < TotalWeight(group[..k + 1])
  {
    PickIsUnique(group, c, k);
  }

  /** One full turn counts the same wherever it starts. */
  lemma {:induction false} TurnAnywhere(group: seq<Target>, cursor: nat, k: nat)
    requires group != [] && TotalWeight(group) > 0
    ensures Picks(group, cursor, TotalWeight(group), k) == Picks(group, 0, TotalWeight(group), k)
  {
    if cursor > 0 {
      var w := TotalWeight(group);
      TurnAnywhere(group, cursor - 1, k);
      TurnShifts(group, cursor - 1, w, k);
    }
  }

  lemma {:induction false} TurnShifts(group: seq<Target>, cursor: nat, w: nat, k: nat)
    requires group != [] && w == TotalWeight(group) > 0
    ensures Picks(group, cursor + 1, w, k) == Picks(group, cursor, w, k)
  {
    var wheel := Wheel(group);
    assert wheel(cursor + w) == wheel(cursor) by { ChoiceRepeats(group, cursor, w); }
    HitsShift(wheel, cursor, w, k);
  }

  lemma {:induction false} ChoiceRepeats(group: seq<Target>, cursor: nat, w: nat)
    requires group != [] && w == TotalWeight(group) > 0
    ensures ChoiceAt(group, cursor + w) == ChoiceAt(group, cursor)
  {
    assert Wrap(cursor + w, w) == Wrap(cursor, w);
  }

  lemma {:induction false} StretchLength(group: seq<Target>, k: nat)
    requires k < |group|
    ensures TotalWeight(group[..k + 1]) - TotalWeight(group[..k]) == Weight(group[k])
  {
    assert group[..k + 1][..k] == group[..k];
  }

  /** Weighted fairness: any full turn of consecutive choices picks every member of the group
      exactly as often as its weight says. */
  lemma {:induction false} FullTurnIsFair(group: seq<Target>, cursor: nat, k: nat)
    requires group != [] && k < |group| && TotalWeight(group) > 0
    ensures Picks(group, cursor, TotalWeight(group), k) == Weight(group[k])
  {
    TurnAnywhere(group, cursor, k);
    PicksFromStart(group, TotalWeight(group), k);
    PrefixWeights(group, k + 1, |group|);
    assert group[..|group|] == group;
    StretchLength(group, k);
  }

  // ---------------------------------------------------------------- the loops of the source

  method FindBest(ts: seq<Target>) returns (best: int)
    requires ts != []
    ensures best == BestPriority(ts)
  {
    best := ts[0].priority;
    for i := 1 to |ts|
      invariant best == BestPriority(ts[..i])
    {
      assert ts[..i + 1][..i] == ts[..i];
      if ts[i].priority < best { best := ts[i].priority; }
    }
    assert ts[..|ts|] == ts;
  }

  method Preferred(ts: seq<Target>, best: int) returns (group: seq<Target>)
    ensures group == WithPriority(ts, best)
  {
    group := [];
    for i := 0 to |ts|
      invariant group == WithPriority(ts[..i], best)
    {
      assert ts[..i + 1][..i] == ts[..i];
      if ts[i].priority == best { group := group + [ts[i]]; }
    }
    assert ts[..|ts|] == ts;
  }

  method Weigh(group: seq<Target>) returns (weight: nat)
    ensures weight == TotalWeight(group)
  {
    weight := 0;
    for i := 0 to |group|
      invariant weight == TotalWeight(group[..i])
    {
      assert group[..i + 1][..i] == group[..i];
      weight := weight + Weight(group[i]);
    }
    assert group[..|group|] == group;
  }

  method Spin(group: seq<Target>, start: nat) returns (k: nat)
    requires group != [] && start < TotalWeight(group)
    ensures k == Pick(group, start) && k < |group|
  {
    var point: int := start;
    k := 0;
    assert group[..|group|] == group;
    while k < |group|
      invariant k <= |group| && point == start - TotalWeight(group[..k]) && point >= 0
    {
      assert group[..k + 1][..k] == group[..k];
      point := point - Weight(group[k]);
      if point < 0 {
        PickIsUnique(group, start, k);
        return;
      }
      k := k + 1;
    }
    assert false;
  }

  lemma {:induction false} GroupExists(available: seq<Target>)
    requires available != []
    ensures Group(available) != [] && TotalWeight(Group(available)) > 0
    ensures forall t, u :: t in Group(available) && u in available ==> t in available && t.priority <= u.priority
  {
    BestIsLeast(available);
    var t :| t in available && t.priority == BestPriority(available);
    assert t in Group(available);
    GroupHasWeight(Group(available));
  }

  /** One choice: a member of the best group, at the cursor's place on the wheel. */
  method Choose(available: seq<Target>, cursor: nat) returns (chosen: Target, next: nat)
    requires available != [] && cursor < TWO_64
    ensures TotalWeight(Group(available)) > 0 && Group(available) != []
    ensures chosen == Group(available)[ChoiceAt(Group(available), cursor)]
    ensures chosen in available && forall t :: t in available ==> chosen.priority <= t.priority
    ensures next == (cursor + 1) % TWO_64
  {
    GroupExists(available);
    var best := FindBest(available);
    var group := Preferred(available, best);
    var weight := Weigh(group);
    WrapIsRemainder(cursor, weight);
    var k := Spin(group, cursor % weight);
    chosen := group[k];
    next := (cursor + 1) % TWO_64;
  }

  // ---------------------------------------------------------------- consecutive choices

  /** The choices made from a cursor on, as long as the available targets stay the same. */
  ghost predicate Chosen(chosen: seq<Target>, group: seq<Target>, cursor: nat)
    requires group != [] && TotalWeight(group) > 0
  {
    forall i :: 0 <= i < |chosen| ==> chosen[i] == group[ChoiceAt(group, cursor + i)]
  }

  predicate Distinct(ts: seq<Target>) { forall i, j :: 0 <= i < j < |ts| ==> ts[i] != ts[j] }

  lemma {:induction false} ChosenAppend(chosen: seq<Target>, group: seq<Target>, cursor: nat, t: Target, at: nat)
    requires group != [] && TotalWeight(group) > 0 && Chosen(chosen, group, cursor)
    requires at == cursor + |chosen| && t == group[ChoiceAt(group, at)]
    ensures Chosen(chosen + [t], group, cursor)
  {
    var more := chosen + [t];
    forall i | 0 <= i < |more| ensures more[i] == group[ChoiceAt(group, cursor + i)] {
      if i == |chosen| { assert cursor + i == at; } else { assert more[i] == chosen[i]; }
    }
  }

  lemma {:induction false} NoWrap(cursor: nat)
    requires cursor < TWO_64
    ensures (cursor + 1) % TWO_64 == if cursor + 1 < TWO_64 then cursor + 1 else 0
  {}

  /** What consecutive choices have made of the cursor, unless it wraps. */
  ghost predicate Turned(chosen: seq<Target>, group: seq<Target>, cursor: nat, next: nat, n: nat) {
    group != [] && TotalWeight(group) > 0 && |chosen| <= n && next < TWO_64
    && (cursor + n <= TWO_64 ==> Chosen(chosen, group, cursor) && (|chosen| < n ==> next == cursor + |chosen|))
  }

  /** Any number of consecutive choices, each starting from the cursor the last one left. */
  method ChooseMany(available: seq<Target>, cursor: nat, n: nat) returns (chosen: seq<Target>, next: nat)
    requires available != [] && cursor < TWO_64
    ensures |chosen| == n && Group(available) != [] && TotalWeight(Group(available)) > 0
    ensures cursor + n <= TWO_64 ==> Chosen(chosen, Group(available), cursor)
  {
    GroupExists(available);
    chosen, next := [], cursor;
    for i := 0 to n
      invariant |chosen| == i && Turned(chosen, Group(available), cursor, next, n)
    {
      chosen, next := ChooseOneMore(available, cursor, n, chosen, next);
    }
  }

  method ChooseOneMore(available: seq<Target>, ghost cursor: nat, ghost n: nat, chosen: seq<Target>, last: nat)
    returns (more: seq<Target>, next: nat)
    requires available != [] && |chosen| < n && Turned(chosen, Group(available), cursor, last, n)
    ensures |more| == |chosen| + 1 && Turned(more, Group(available), cursor, next, n)
  {
    var t;
    t, next := Choose(available, last);
    NoWrap(last);
    more := chosen + [t];
    if cursor + n <= TWO_64 { ChosenAppend(chosen, Group(available), cursor, t, last); }
  }

  function Count(ts: seq<Target>, t: Target): nat {
    if ts == [] then 0 else Count(ts[..|ts| - 1], t) + if ts[|ts| - 1] == t then 1 else 0
  }

  lemma {:induction false} ChosenPrefix(chosen: seq<Target>, past: seq<Target>, last: Target, group: seq<Target>,
                                        cursor: nat)
    requires group != [] && TotalWeight(group) > 0 && Chosen(chosen, group, cursor) && chosen == past + [last]
    ensures Chosen(past, group, cursor) && last == group[ChoiceAt(group, cursor + |past|)]
  {
    assert chosen[|past|] == last;
    assert forall i :: 0 <= i < |past| ==> past[i] == chosen[i];
  }

  /** Choices made by position, whatever decides the positions. */
  ghost predicate Follows(chosen: seq<Target>, group: seq<Target>, choice: nat -> nat, cursor: nat) {
    forall i :: 0 <= i < |chosen| ==> Stands(chosen[i], group, choice(cursor + i))
  }

  predicate Stands(t: Target, group: seq<Target>, place: nat) { place < |group| && t == group[place] }

  lemma {:induction false} CountIsHits(chosen: seq<Target>, group: seq<Target>, choice: nat -> nat, cursor: nat,
                                       k: nat)
    requires Distinct(group) && k < |group| && Follows(chosen, group, choice, cursor)
    ensures Count(chosen, group[k]) == Hits(choice, cursor, |chosen|, k)
  {
    if chosen != [] {
      var past := chosen[..|chosen| - 1];
      assert forall i :: 0 <= i < |past| ==> past[i] == chosen[i];
      CountIsHits(past, group, choice, cursor, k);
      assert Stands(chosen[|past|], group, choice(cursor + |past|));
      SameMember(group, choice(cursor + |past|), k);
    }
  }

  lemma {:induction false} CountIsPicks(chosen: seq<Target>, group: seq<Target>, cursor: nat, k: nat)
    requires group != [] && TotalWeight(group) > 0 && Distinct(group) && k < |group| && Chosen(chosen, group, cursor)
    ensures Count(chosen, group[k]) == Picks(group, cursor, |chosen|, k)
  {
    var wheel := Wheel(group);
    forall i | 0 <= i < |chosen| ensures Stands(chosen[i], group, wheel(cursor + i)) {
      assert chosen[i] == group[ChoiceAt(group, cursor + i)];
    }
    CountIsHits(chosen, group, wheel, cursor, k);
  }

  lemma {:induction false} SameMember(group: seq<Target>, i: nat, k: nat)
    requires Distinct(group) && i < |group| && k < |group|
    ensures group[i] == group[k] <==> i == k
  {}

  lemma {:induction false} OthersNeverChosen(chosen: seq<Target>, group: seq<Target>, cursor: nat, t: Target)
    requires group != [] && TotalWeight(group) > 0 && Chosen(chosen, group, cursor) && t !in group
    ensures Count(chosen, t) == 0
  {
    if chosen != [] {
      var past, last := chosen[..|chosen| - 1], chosen[|chosen| - 1];
      ChosenPrefix(chosen, past, last, group, cursor);
      OthersNeverChosen(past, group, cursor, t);
    }
  }

  /** Weighted fairness: as many consecutive choices as the best group weighs pick each of its
      members exactly as often as its weight says, and nothing else. */
  lemma {:induction false} ChoicesAreFair(available: seq<Target>, chosen: seq<Target>, cursor: nat, t: Target)
    requires available != [] && Group(available) != [] && TotalWeight(Group(available)) > 0
    requires Distinct(Group(available))
    requires |chosen| == TotalWeight(Group(available)) && Chosen(chosen, Group(available), cursor)
    ensures Count(chosen, t) == if t in Group(available) then Weight(t) else 0
  {
    var group := Group(available);
    if t in group {
      var k :| 0 <= k < |group| && group[k] == t;
      CountIsPicks(chosen, group, cursor, k);
      FullTurnIsFair(group, cursor, k);
    } else {
      OthersNeverChosen(chosen, group, cursor, t);
    }
  }
}
