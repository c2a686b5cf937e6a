/** What a selection answers: which targets are candidates, exactly, and what an answer says about
    the pool. */
module UpstreamSelection {
  import opened WeightedChoice
  import opened Upstream

  /** The target is in the pool's order, healthy, and safe to fail over to. */
  ghost predicate Usable(p: Pool, sel: Selection, now: int, id: string) {
    exists i :: 0 <= i < |p.order| && p.order[i] == id && Eligible(p, sel, now, i)
  }

  ghost predicate HasOther(p: Pool, sel: Selection, now: int) {
    exists id :: id != sel.previousId && Usable(p, sel, now, id)
  }

  predicate Prefers(sel: Selection) { sel.preferred != "" }

  lemma {:induction false} EligibleIsUsable(p: Pool, sel: Selection, now: int)
    ensures forall id :: id in EligibleUpTo(p, sel, now, |p.order|) <==> Usable(p, sel, now, id)
  {
    EligibleSound(p, sel, now, |p.order|);
  }

  lemma {:induction false} AwayIsOther(p: Pool, sel: Selection, now: int)
    ensures var ids := EligibleUpTo(p, sel, now, |p.order|);
      Without(ids, sel.previousId) != [] <==> HasOther(p, sel, now)
  {
    var ids := EligibleUpTo(p, sel, now, |p.order|);
    var away := Without(ids, sel.previousId);
    EligibleIsUsable(p, sel, now);
    WithoutSound(ids, sel.previousId);
    if away != [] {
      assert away[0] in away;
      assert Usable(p, sel, now, away[0]);
    }
    if HasOther(p, sel, now) {
      var id :| id != sel.previousId && Usable(p, sel, now, id);
      assert id in away;
    }
  }

  /** Candidates, exactly.  A usable preferred target is the only one; without it a required
      preference leaves none; otherwise all usable targets are, except that with weighted
      priorities a request that may change its target avoids the previous one if it can. */
  ghost predicate IsCandidate(p: Pool, sel: Selection, now: int, id: string) {
    && Usable(p, sel, now, id)
    && (Prefers(sel) && Usable(p, sel, now, sel.preferred) ==> id == sel.preferred)
    && (Prefers(sel) && !Usable(p, sel, now, sel.preferred) ==> !sel.requirePreferred)
    && (!(Prefers(sel) && Usable(p, sel, now, sel.preferred)) && p.strategy == WeightedPriority
        && sel.previousId != "" && (!sel.wrote || sel.idempotencyKey != "") && HasOther(p, sel, now)
        ==> id != sel.previousId)
  }

  lemma {:induction false} OnlyOne(ids: seq<string>, id: string)
    requires |ids| == 1
    ensures Without(ids, id) != [] ==> Without(ids, id) == ids
  {
    assert ids[..0] == [] && [] + [ids[0]] == ids;
    assert Without(ids[..0], id) == [];
  }

  lemma {:induction false} CandidatesExact(p: Pool, sel: Selection, now: int, id: string)
    ensures id in Candidates(p, sel, now) <==> IsCandidate(p, sel, now, id)
  {
    var ids := EligibleUpTo(p, sel, now, |p.order|);
    EligibleIsUsable(p, sel, now);
    AwayIsOther(p, sel, now);
    WithoutSound(ids, sel.previousId);
    if |ids| == 1 { OnlyOne(ids, sel.previousId); }
  }

  /** There is a candidate whenever some target is usable, unless a preference that cannot be met
      is required. */
  lemma {:induction false} CandidatesComplete(p: Pool, sel: Selection, now: int)
    ensures Candidates(p, sel, now) != [] <==>
      && (exists id :: Usable(p, sel, now, id))
      && (Prefers(sel) && sel.requirePreferred ==> Usable(p, sel, now, sel.preferred))
  {
    var c := Candidates(p, sel, now);
    if c != [] {
      assert c[0] in c;
      CandidatesExact(p, sel, now, c[0]);
    }
    if id :| Usable(p, sel, now, id) {
      if Prefers(sel) && Usable(p, sel, now, sel.preferred) {
        CandidatesExact(p, sel, now, sel.preferred);
      } else if HasOther(p, sel, now) {
        var other :| other != sel.previousId && Usable(p, sel, now, other);
        CandidatesExact(p, sel, now, other);
      } else {
        CandidatesExact(p, sel, now, id);
      }
    }
  }

  lemma {:induction false} RoomyComplete(targets: map<string, Health>, ids: seq<string>, n: nat)
    requires n <= |ids| && forall id :: id in ids ==> id in targets
    ensures RoomyUpTo(targets, ids, n) == [] <==> forall i :: 0 <= i < n ==> !HasRoom(targets[ids[i]])
  {
    if n > 0 { RoomyComplete(targets, ids, n - 1); }
  }

  /** The three answers: none without a candidate, full when all candidates are at their maximum,
      and a lease on one of them otherwise. */
  lemma {:induction false} SelectAnswers(p: Pool, sel: Selection, now: int)
    requires Named(p)
    ensures var answer, c := SelectStep(p, sel, now).1, Candidates(p, sel, now);
      && (answer.NoTarget? <==> c == [])
      && (answer.Lease? <==> exists id :: id in c && id in p.targets && HasRoom(p.targets[id]))
  {
    var q, c := Look(p, now), Candidates(p, sel, now);
    forall id | id in c ensures id in p.targets && id in q.targets { CandidatesSound(p, sel, now, id); }
    forall id | id in c ensures HasRoom(q.targets[id]) == HasRoom(p.targets[id]) {}
    RoomyComplete(q.targets, c, |c|);
    if Roomy(p, sel, now) != [] {
      var i :| 0 <= i < |c| && HasRoom(q.targets[c[i]]);
      assert c[i] in c;
    }
  }

  /** A target that would be looked at is healthy. */
  ghost predicate Healthy(p: Pool, now: int, i: nat)
    requires i < |p.order|
  {
    Visited(p, i) && p.order[i] in p.targets && Passes(p.targets[p.order[i]], p.settings, now)
  }

  /** Health is blamed only when no target is healthy, unless a preference was required: a
      healthy target that is left out for failover safety is reported as such. */
  lemma {:induction false} BlameIsRight(p: Pool, sel: Selection, now: int)
    requires Named(p) && SelectStep(p, sel, now).1 == NoTarget(false) && !(Prefers(sel) && sel.requirePreferred)
    ensures forall i :: 0 <= i < |p.order| ==> !Healthy(p, now, i)
  {
    CandidatesComplete(p, sel, now);
    forall i | 0 <= i < |p.order| ensures !Healthy(p, now, i) {
      assert Healthy(p, now, i) && Safe(p.targets[p.order[i]].target, sel) ==> Usable(p, sel, now, p.order[i]);
      assert p.order[i] in p.targets && sel.wrote ==> !Blocks(p.targets[p.order[i]].target, sel);
    }
  }

  /** The request may not go to the target once it was written: it has no idempotency key, or the
      target is of another domain. */
  predicate Forbidden(t: Target, sel: Selection) {
    || (sel.idempotencyKey == "" && t.id != sel.previousId)
    || (!sel.allowCrossDomain && sel.previousDomain != "" && t.domain != sel.previousDomain)
  }

  /** Safety is blamed only after a write, and when some target is one the request may not go
      to. */
  lemma {:induction false} SafetyBlamed(p: Pool, sel: Selection, now: int)
    requires Named(p) && SelectStep(p, sel, now).1 == NoTarget(true)
    ensures sel.wrote && exists id :: id in p.targets && Forbidden(p.targets[id].target, sel)
  {
    var i :| 0 <= i < |p.order| && p.order[i] in p.targets && Blocks(p.targets[p.order[i]].target, sel);
    assert p.order[i] in p.targets;
  }

  /** With the primary-only strategy nothing but the first target of the order is ever used. */
  lemma {:induction false} PrimaryIsOnly(p: Pool, sel: Selection, now: int, id: string)
    requires p.strategy == PrimaryOnly && id in Candidates(p, sel, now)
    ensures p.order != [] && id == p.order[0]
  {
    CandidatesExact(p, sel, now, id);
  }

  // ---------------------------------------------------------------- fairness over runs

  /** The operation does not select, or it chooses among the given group. */
  ghost predicate ChoosesFrom(p: Pool, op: Op, group: seq<Target>) {
    op.Select? ==> Roomy(p, op.selection, op.now) != [] && Group(Roomy(p, op.selection, op.now)) == group
  }

  predicate Leases(p: Pool, op: Op, t: Target)
    requires Named(p)
  {
    op.Select? && SelectStep(p, op.selection, op.now).1 == Lease(p.issued, t)
  }

  ghost function Selections(ops: seq<Op>, m: nat, n: nat): nat
    requires m <= n <= |ops|
    decreases n - m
  {
    if n == m then 0 else Selections(ops, m, n - 1) + if ops[n - 1].Select? then 1 else 0
  }

  ghost predicate WellNamed(ps: seq<Pool>, ops: seq<Op>) {
    |ps| == |ops| + 1 && forall i :: 0 <= i < |ops| ==> Named(ps[i])
  }

  /** The leases given on a target from operation m up to n. */
  ghost function LeasesOn(ps: seq<Pool>, ops: seq<Op>, m: nat, n: nat, t: Target): nat
    requires m <= n <= |ops| && WellNamed(ps, ops)
    decreases n - m
  {
    if n == m then 0 else LeasesOn(ps, ops, m, n - 1, t) + if Leases(ps[n - 1], ops[n - 1], t) then 1 else 0
  }

  ghost predicate Distinct(group: seq<Target>) { forall i, j :: 0 <= i < j < |group| ==> group[i] != group[j] }

  /** One selection: the wheel decides, and the cursor moves on. */
  lemma {:induction false} SelectionTurns(p: Pool, op: Op, group: seq<Target>, k: nat)
    requires Named(p) && op.Select? && ChoosesFrom(p, op, group) && k < |group| && Distinct(group)
    requires p.cursor + 1 < TWO_64
    ensures TotalWeight(group) > 0
    ensures Leases(p, op, group[k]) <==> Wheel(group)(p.cursor) == k
    ensures Step(p, op).cursor == p.cursor + 1
  {
    GroupHasWeight(group);
    var roomy := Roomy(p, op.selection, op.now);
    assert Candidates(p, op.selection, op.now) != [];
    assert Choice(roomy, p.cursor) == group[ChoiceAt(group, p.cursor)];
  }

  lemma {:induction false} FinishKeepsCursor(p: Pool, op: Op)
    requires Named(p) && op.Finish?
    ensures Step(p, op).cursor == p.cursor
  {}

  ghost predicate AllChooseFrom(ps: seq<Pool>, ops: seq<Op>, m: nat, n: nat, group: seq<Target>)
    requires m <= n <= |ops| < |ps|
  {
    forall i :: m <= i < n ==> ChoosesFrom(ps[i], ops[i], group)
  }

  /** The leases on a target are the hits of its number on a wheel, from where the cursor stood. */
  ghost predicate Follows(ps: seq<Pool>, ops: seq<Op>, m: nat, n: nat, t: Target, wheel: nat -> nat, k: nat)
    requires WellNamed(ps, ops) && m <= n <= |ops|
  {
    && ps[n].cursor == ps[m].cursor + Selections(ops, m, n)
    && LeasesOn(ps, ops, m, n, t) == Hits(wheel, ps[m].cursor, Selections(ops, m, n), k)
  }

  lemma {:induction false} SelectFollows(ps: seq<Pool>, ops: seq<Op>, m: nat, n: nat, t: Target, wheel: nat -> nat,
                                         k: nat)
    requires WellNamed(ps, ops) && m < n <= |ops| && ops[n - 1].Select?
    requires ps[n].cursor == ps[n - 1].cursor + 1
    requires Leases(ps[n - 1], ops[n - 1], t) <==> wheel(ps[n - 1].cursor) == k
    requires Follows(ps, ops, m, n - 1, t, wheel, k)
    ensures Follows(ps, ops, m, n, t, wheel, k)
  {}

  lemma {:induction false} FinishFollows(ps: seq<Pool>, ops: seq<Op>, m: nat, n: nat, t: Target, wheel: nat -> nat,
                                         k: nat)
    requires WellNamed(ps, ops) && m < n <= |ops| && ops[n - 1].Finish? && ps[n].cursor == ps[n - 1].cursor
    requires Follows(ps, ops, m, n - 1, t, wheel, k)
    ensures Follows(ps, ops, m, n, t, wheel, k)
  {}

  lemma {:induction false} LeasesFollowWheel(ps: seq<Pool>, ops: seq<Op>, m: nat, n: nat, group: seq<Target>, k: nat)
    requires IsRun(ps, ops) && m <= n <= |ops| && AllChooseFrom(ps, ops, m, n, group)
    requires k < |group| && Distinct(group) && TotalWeight(group) > 0
    requires ps[m].cursor + Selections(ops, m, n) < TWO_64
    ensures Follows(ps, ops, m, n, group[k], Wheel(group), k)
    decreases n - m
  {
    if m < n {
      LeasesFollowWheel(ps, ops, m, n - 1, group, k);
      if ops[n - 1].Select? {
        SelectionTurns(ps[n - 1], ops[n - 1], group, k);
        SelectFollows(ps, ops, m, n, group[k], Wheel(group), k);
      } else {
        FinishKeepsCursor(ps[n - 1], ops[n - 1]);
        FinishFollows(ps, ops, m, n, group[k], Wheel(group), k);
      }
    }
  }

  /** Weighted fairness of the pool: as long as the same group is to choose from, whatever is
      reported meanwhile, every full turn of selections leases each target as often as its
      weight says, up to the wrap-around of the cursor. */
  lemma {:induction false} SelectionsAreFair(ps: seq<Pool>, ops: seq<Op>, m: nat, n: nat, group: seq<Target>, k: nat)
    requires IsRun(ps, ops) && m <= n <= |ops| && AllChooseFrom(ps, ops, m, n, group)
    requires k < |group| && Distinct(group) && Selections(ops, m, n) == TotalWeight(group)
    requires ps[m].cursor + TotalWeight(group) < TWO_64
    ensures LeasesOn(ps, ops, m, n, group[k]) == Weight(group[k])
  {
    GroupHasWeight(group);
    LeasesFollowWheel(ps, ops, m, n, group, k);
    FullTurnIsFair(group, ps[m].cursor, k);
  }
}
