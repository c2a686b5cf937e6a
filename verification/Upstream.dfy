/** The upstream pool: circuit breakers, leases, failover filters and selection. */
module Upstream {
  import opened WeightedChoice

  datatype Circuit = Closed | Open | HalfOpen

  datatype Settings = Settings(enabled: bool, openDuration: int, halfOpenMax: int, minimumRequests: int,
                               failurePercent: int)

  datatype Health = Health(target: Target, active: int, failures: nat, rateLimited: nat, successes: nat,
                           circuit: Circuit, openedAt: int, halfOpenLeases: int)

  datatype Selection = Selection(preferred: string, requirePreferred: bool, previousId: string, previousDomain: string,
                                 wrote: bool, idempotencyKey: string, allowCrossDomain: bool)

  datatype Observation = Observation(success: bool, category: string)

  datatype Strategy = PrimaryOnly | WeightedPriority | OtherStrategy

  /** The pool and the leases that are still out, by a number given at selection. */
  datatype Pool = Pool(strategy: Strategy, settings: Settings, order: seq<string>, targets: map<string, Health>,
                       cursor: nat, leases: map<nat, string>, issued: nat)

  /** Settings as the constructor normalizes them. */
  predicate Normalized(c: Settings) {
    c.openDuration > 0 && c.halfOpenMax > 0 && c.minimumRequests > 0 && c.failurePercent > 0
  }

  // ---------------------------------------------------------------- circuit checks

  /** An open circuit whose period is over becomes half-open when it is looked at. */
  function Probed(h: Health, c: Settings, now: int): Health {
    if h.circuit == Open && now - h.openedAt >= c.openDuration && !(c.enabled && h.halfOpenLeases >= c.halfOpenMax)
    then h.(circuit := HalfOpen) else h
  }

  predicate Passes(h: Health, c: Settings, now: int) {
    var p := Probed(h, c, now);
    p.circuit != Open && (p.circuit == HalfOpen ==> p.halfOpenLeases < c.halfOpenMax)
  }

  /** Whether failing over to the target is safe after what was already written. */
  predicate Safe(t: Target, sel: Selection) {
    && !(sel.previousId != "" && sel.wrote && sel.idempotencyKey == "" && t.id != sel.previousId)
    && !(sel.previousDomain != "" && sel.wrote && !sel.allowCrossDomain && t.domain != sel.previousDomain)
  }

  predicate Visited(p: Pool, i: nat) { p.strategy == PrimaryOnly ==> i == 0 }

  predicate Eligible(p: Pool, sel: Selection, now: int, i: nat)
    requires i < |p.order|
  {
    var id := p.order[i];
    Visited(p, i) && id in p.targets && Passes(p.targets[id], p.settings, now) && Safe(p.targets[id].target, sel)
  }

  function EligibleUpTo(p: Pool, sel: Selection, now: int, n: nat): seq<string>
    requires n <= |p.order|
  {
    if n == 0 then [] else
      var before := EligibleUpTo(p, sel, now, n - 1);
      if Eligible(p, sel, now, n - 1) then before + [p.order[n - 1]] else before
  }

  predicate Looked(p: Pool, id: string, n: nat)
    requires n <= |p.order|
  {
    exists i :: 0 <= i < n && p.order[i] == id && Visited(p, i)
  }

  /** Every target that is looked at is probed, chosen or not. */
  function ProbedUpTo(p: Pool, now: int, n: nat): map<string, Health>
    requires n <= |p.order|
  {
    map id | id in p.targets :: if Looked(p, id, n) then Probed(p.targets[id], p.settings, now) else p.targets[id]
  }

  function Without(ids: seq<string>, id: string): seq<string> {
    if ids == [] then [] else
      var before := Without(ids[..|ids| - 1], id);
      if ids[|ids| - 1] != id then before + [ids[|ids| - 1]] else before
  }

  predicate CanChangeTarget(sel: Selection) { !sel.wrote || sel.idempotencyKey != "" }

  /** The eligible targets, narrowed to a preferred one, or away from the previous one. */
  function Narrowed(p: Pool, sel: Selection, ids: seq<string>): seq<string> {
    if sel.preferred != "" && sel.preferred in ids then [sel.preferred]
    else if sel.preferred != "" && sel.requirePreferred then []
    else if p.strategy == WeightedPriority && sel.previousId != "" && |ids| > 1 && CanChangeTarget(sel)
            && Without(ids, sel.previousId) != [] then Without(ids, sel.previousId)
    else ids
  }

  function Candidates(p: Pool, sel: Selection, now: int): seq<string> {
    Narrowed(p, sel, EligibleUpTo(p, sel, now, |p.order|))
  }

  lemma {:induction false} EligibleSound(p: Pool, sel: Selection, now: int, n: nat)
    requires n <= |p.order|
    ensures forall id :: id in EligibleUpTo(p, sel, now, n) <==>
              exists i :: 0 <= i < n && p.order[i] == id && Eligible(p, sel, now, i)
  {
    if n > 0 {
      EligibleSound(p, sel, now, n - 1);
      var before := EligibleUpTo(p, sel, now, n - 1);
      assert forall id :: id in before + [p.order[n - 1]] <==> id in before || id == p.order[n - 1];
    }
  }

  lemma {:induction false} WithoutSound(ids: seq<string>, id: string)
    ensures forall x :: x in Without(ids, id) <==> x in ids && x != id
  {
    if ids != [] {
      WithoutSound(ids[..|ids| - 1], id);
      assert ids == ids[..|ids| - 1] + [ids[|ids| - 1]];
    }
  }

  /** Every candidate is a known target that passes its circuit and is safe to fail over to. */
  lemma {:induction false} CandidatesSound(p: Pool, sel: Selection, now: int, id: string)
    requires id in Candidates(p, sel, now)
    ensures id in p.targets && Passes(p.targets[id], p.settings, now) && Safe(p.targets[id].target, sel)
  {
    EligibleSound(p, sel, now, |p.order|);
    WithoutSound(EligibleUpTo(p, sel, now, |p.order|), sel.previousId);
  }

  // ---------------------------------------------------------------- outcomes

  predicate CountsForCircuit(o: Observation) { !o.success && o.category !in {"auth", "client", "duplicate_risk"} }

  function Observed(h: Health, c: Settings, o: Observation, now: int): Health {
    if o.success then
      var s := h.(successes := h.successes + 1);
      if h.circuit != Closed then s.(circuit := Closed, failures := 0) else s
    else if !CountsForCircuit(o) then h
    else
      var f := h.(failures := h.failures + 1,
                  rateLimited := h.rateLimited + if o.category == "rate_limit" then 1 else 0);
      var requests := f.failures + f.successes;
      if !c.enabled then f
      else if h.circuit == HalfOpen
          || (requests >= c.minimumRequests && f.failures * 100 >= requests * c.failurePercent)
      then f.(circuit := Open, openedAt := now)
      else f
  }

  /** A lease comes back: any lease that comes back while the circuit is half-open lowers the
      count, also one that was taken while it was closed. */
  function Returned(h: Health): Health {
    h.(active := if h.active > 0 then h.active - 1 else h.active,
       halfOpenLeases := if h.circuit == HalfOpen && h.halfOpenLeases > 0
           then h.halfOpenLeases - 1 else h.halfOpenLeases)
  }

  datatype Report = Nothing | Report(observation: Observation)

  function Finished(h: Health, c: Settings, r: Report, now: int): Health {
    match r
    case Nothing => Returned(h)
    case Report(o) => Observed(Returned(h), c, o, now)
  }

  function Leased(h: Health): Health {
    h.(active := h.active + 1, halfOpenLeases := h.halfOpenLeases + if h.circuit == HalfOpen then 1 else 0)
  }

  predicate HasRoom(h: Health) { h.target.maxActive <= 0 || h.active < h.target.maxActive }

  // ---------------------------------------------------------------- steps

  function RoomyUpTo(targets: map<string, Health>, ids: seq<string>, n: nat): seq<Target>
    requires n <= |ids| && forall id :: id in ids ==> id in targets
  {
    if n == 0 then [] else
      var before := RoomyUpTo(targets, ids, n - 1);
      if HasRoom(targets[ids[n - 1]]) then before + [targets[ids[n - 1]].target] else before
  }

  datatype Answer = NoTarget(unsafe: bool) | Full | Lease(number: nat, target: Target)

  predicate Blocks(t: Target, sel: Selection) {
    || (sel.idempotencyKey == "" && t.id != sel.previousId)
    || (!sel.allowCrossDomain && sel.previousDomain != "" && t.domain != sel.previousDomain)
  }

  /** Whether an empty answer is blamed on failover safety rather than on health. */
  predicate SafetyBlocked(p: Pool, sel: Selection) {
    sel.wrote && exists i :: 0 <= i < |p.order| && p.order[i] in p.targets && Blocks(p.targets[p.order[i]].target, sel)
  }

  /** Targets are stored under their own id. */
  predicate Named(p: Pool) {
    forall id :: id in p.targets ==> p.targets[id].target.id == id
  }

  function Look(p: Pool, now: int): Pool { p.(targets := ProbedUpTo(p, now, |p.order|)) }

  function Choice(roomy: seq<Target>, cursor: nat): (t: Target)
    requires roomy != []
    ensures t in roomy && forall u :: u in roomy ==> t.priority <= u.priority
  {
    GroupExists(roomy);
    Group(roomy)[ChoiceAt(Group(roomy), cursor)]
  }

  /** The pool after a lease on id was handed out. */
  function Granted(q: Pool, id: string): Pool
    requires id in q.targets
  {
    q.(cursor := (q.cursor + 1) % TWO_64, targets := q.targets[id := Leased(q.targets[id])],
       leases := q.leases[q.issued := id], issued := q.issued + 1)
  }

  /** Candidates that still have room, as targets. */
  function Roomy(p: Pool, sel: Selection, now: int): seq<Target> {
    var q, ids := Look(p, now), Candidates(p, sel, now);
    assert forall id :: id in ids ==> id in q.targets by {
      forall id | id in ids ensures id in q.targets { CandidatesSound(p, sel, now, id); }
    }
    RoomyUpTo(q.targets, ids, |ids|)
  }

  lemma {:induction false} RoomyIsCandidate(p: Pool, sel: Selection, now: int, t: Target)
    requires Named(p) && t in Roomy(p, sel, now)
    ensures t.id in Candidates(p, sel, now) && t.id in p.targets && p.targets[t.id].target == t
    ensures HasRoom(Look(p, now).targets[t.id])
  {
    var q, ids := Look(p, now), Candidates(p, sel, now);
    forall id | id in ids ensures id in q.targets { CandidatesSound(p, sel, now, id); }
    RoomySound(q, ids, |ids|);
  }

  function SelectStep(p: Pool, sel: Selection, now: int): (Pool, Answer)
    requires Named(p)
  {
    if Candidates(p, sel, now) == [] then (Look(p, now), NoTarget(SafetyBlocked(p, sel)))
    else if Roomy(p, sel, now) == [] then (Look(p, now), Full)
    else
      var chosen := Choice(Roomy(p, sel, now), p.cursor);
      RoomyIsCandidate(p, sel, now, chosen);
      (Granted(Look(p, now), chosen.id), Lease(p.issued, chosen))
  }

  lemma {:induction false} RoomySound(p: Pool, ids: seq<string>, n: nat)
    requires n <= |ids| && forall id :: id in ids ==> id in p.targets
    requires Named(p)
    ensures forall t :: t in RoomyUpTo(p.targets, ids, n) ==>
              t.id in ids && t.id in p.targets && p.targets[t.id].target == t && HasRoom(p.targets[t.id])
  {
    if n > 0 {
      RoomySound(p, ids, n - 1);
      assert ids[n - 1] in ids;
    }
  }

  /** Only the first report of a lease counts. */
  function FinishStep(p: Pool, lease: nat, r: Report, now: int): Pool {
    if lease !in p.leases || p.leases[lease] !in p.targets then p else
      var id := p.leases[lease];
      p.(targets := p.targets[id := Finished(p.targets[id], p.settings, r, now)], leases := p.leases - {lease})
  }

  // ---------------------------------------------------------------- a target never wedges

  ghost function Out(p: Pool, id: string): set<nat> { set l | l in p.leases && p.leases[l] == id }

  /** What holds of one target with the given number of leases out. */
  predicate Sane(h: Health, c: Settings, out: nat) {
    && h.active == out
    && (h.target.maxActive > 0 ==> h.active <= h.target.maxActive)
    && 0 <= h.halfOpenLeases <= c.halfOpenMax
    && (h.circuit != HalfOpen ==> h.halfOpenLeases < c.halfOpenMax)
    && h.halfOpenLeases <= out + c.halfOpenMax - 1
    && (!c.enabled ==> h.circuit == Closed)
  }

  ghost predicate Sound(p: Pool) {
    && Normalized(p.settings) && Named(p) && p.cursor < TWO_64
    && (forall l :: l in p.leases ==> l < p.issued && p.leases[l] in p.targets)
    && (forall id :: id in p.targets ==> Sane(p.targets[id], p.settings, |Out(p, id)|))
  }

  lemma {:induction false} ProbedSane(h: Health, c: Settings, out: nat, now: int)
    requires Normalized(c) && Sane(h, c, out)
    ensures Sane(Probed(h, c, now), c, out)
  {}

  lemma {:induction false} LeasedSane(h: Health, c: Settings, out: nat, now: int)
    requires Normalized(c) && Sane(h, c, out) && Passes(h, c, now) && h == Probed(h, c, now) && HasRoom(h)
    ensures Sane(Leased(h), c, out + 1)
  {}

  lemma {:induction false} FinishedSane(h: Health, c: Settings, out: nat, r: Report, now: int)
    requires Normalized(c) && Sane(h, c, out) && out > 0
    ensures Sane(Finished(h, c, r, now), c, out - 1)
  {}

  /** A target without leases whose open period is over passes its circuit checks. */
  lemma {:induction false} IdleNeverWedged(p: Pool, id: string, now: int)
    requires Sound(p) && id in p.targets && Out(p, id) == {}
    requires p.targets[id].circuit == Open ==> now - p.targets[id].openedAt >= p.settings.openDuration
    ensures Passes(p.targets[id], p.settings, now)
    ensures p.targets[id].active == 0 && p.targets[id].halfOpenLeases < p.settings.halfOpenMax
  {
    assert Sane(p.targets[id], p.settings, |Out(p, id)|);
  }

  lemma {:induction false} LookSound(p: Pool, now: int)
    requires Sound(p)
    ensures Sound(Look(p, now))
  {
    var q := Look(p, now);
    forall id | id in q.targets ensures Sane(q.targets[id], q.settings, |Out(q, id)|) {
      assert Out(q, id) == Out(p, id);
      ProbedSane(p.targets[id], p.settings, |Out(p, id)|, now);
    }
  }

  lemma {:induction false} OutTaken(p: Pool, id: string, l: nat, q: Pool, other: string)
    requires l !in p.leases && q.leases == p.leases[l := id]
    ensures Out(q, other) == if other == id then Out(p, id) + {l} else Out(p, other)
  {}

  lemma {:induction false} OutReturned(p: Pool, l: nat, q: Pool, other: string)
    requires l in p.leases && q.leases == p.leases - {l}
    ensures Out(q, other) == if other == p.leases[l] then Out(p, other) - {l} else Out(p, other)
  {}

  lemma {:induction false} CandidateIsProbed(p: Pool, sel: Selection, now: int, id: string)
    requires id in Candidates(p, sel, now)
    ensures id in p.targets && Looked(p, id, |p.order|)
    ensures var h := Look(p, now).targets[id]; Passes(h, p.settings, now) && h == Probed(h, p.settings, now)
  {
    EligibleSound(p, sel, now, |p.order|);
    WithoutSound(EligibleUpTo(p, sel, now, |p.order|), sel.previousId);
  }

  lemma {:induction false} GrantedSound(q: Pool, id: string, now: int)
    requires Sound(q) && id in q.targets && HasRoom(q.targets[id])
    requires Passes(q.targets[id], q.settings, now) && q.targets[id] == Probed(q.targets[id], q.settings, now)
    ensures Sound(Granted(q, id))
  {
    var g := Granted(q, id);
    assert q.issued !in q.leases;
    forall other | other in g.targets ensures Sane(g.targets[other], g.settings, |Out(g, other)|) {
      OutTaken(q, id, q.issued, g, other);
      assert Sane(q.targets[other], q.settings, |Out(q, other)|);
      if other == id {
        assert q.issued !in Out(q, id);
        LeasedSane(q.targets[id], q.settings, |Out(q, id)|, now);
      }
    }
  }

  /** What a selection does: nothing but looking, or one lease on a candidate with room. */
  lemma {:induction false} SelectEffect(p: Pool, sel: Selection, now: int)
    requires Named(p)
    ensures var (q, answer) := SelectStep(p, sel, now);
      && (!answer.Lease? ==> q == Look(p, now))
      && (answer.Lease? ==>
            && answer.target.id in Candidates(p, sel, now) && answer.target.id in p.targets
            && p.targets[answer.target.id].target == answer.target
            && HasRoom(Look(p, now).targets[answer.target.id])
            && q == Granted(Look(p, now), answer.target.id))
  {
    if Roomy(p, sel, now) != [] {
      RoomyIsCandidate(p, sel, now, Choice(Roomy(p, sel, now), p.cursor));
    }
  }

  lemma {:induction false} SelectSound(p: Pool, sel: Selection, now: int)
    requires Sound(p)
    ensures Sound(SelectStep(p, sel, now).0)
  {
    SelectEffect(p, sel, now);
    LookSound(p, now);
    var answer := SelectStep(p, sel, now).1;
    if answer.Lease? {
      CandidateIsProbed(p, sel, now, answer.target.id);
      GrantedSound(Look(p, now), answer.target.id, now);
    }
  }

  lemma {:induction false} FinishSound(p: Pool, lease: nat, r: Report, now: int)
    requires Sound(p)
    ensures Sound(FinishStep(p, lease, r, now))
  {
    if lease in p.leases {
      var q, id := FinishStep(p, lease, r, now), p.leases[lease];
      assert lease in Out(p, id);
      forall other | other in q.targets ensures Sane(q.targets[other], q.settings, |Out(q, other)|) {
        OutReturned(p, lease, q, other);
        assert Sane(p.targets[other], p.settings, |Out(p, other)|);
        if other == id { FinishedSane(p.targets[id], p.settings, |Out(p, id)|, r, now); }
      }
    }
  }

  // ---------------------------------------------------------------- runs

  datatype Op = Select(selection: Selection, now: int) | Finish(lease: nat, report: Report, now: int)

  ghost function Step(p: Pool, op: Op): Pool
    requires Named(p)
  {
    match op
    case Select(sel, now) => SelectStep(p, sel, now).0
    case Finish(lease, r, now) => FinishStep(p, lease, r, now)
  }

  ghost predicate Initial(p: Pool) {
    && Normalized(p.settings) && Named(p) && p.cursor == 0 && p.leases == map[] && p.issued == 0
    && forall id :: id in p.targets ==>
         p.targets[id].active == 0 && p.targets[id].circuit == Closed && p.targets[id].halfOpenLeases == 0
  }

  ghost predicate IsRun(ps: seq<Pool>, ops: seq<Op>) {
    && |ps| == |ops| + 1 && Initial(ps[0])
    && forall i :: 0 <= i < |ops| ==> Named(ps[i]) && ps[i + 1] == Step(ps[i], ops[i])
  }

  /** In every reachable state the half-open count is at most its maximum, strictly less unless
      the circuit is half-open, and a target that is idle past its open period is selectable. */
  lemma {:induction false} NeverWedged(ps: seq<Pool>, ops: seq<Op>, n: nat, id: string, now: int)
    requires IsRun(ps, ops) && n <= |ops|
    ensures Sound(ps[n])
    ensures id in ps[n].targets && Out(ps[n], id) == {}
            && (ps[n].targets[id].circuit == Open ==> now - ps[n].targets[id].openedAt >= ps[n].settings.openDuration)
            ==> Passes(ps[n].targets[id], ps[n].settings, now)
  {
    if n == 0 {
      forall x | x in ps[0].targets ensures Sane(ps[0].targets[x], ps[0].settings, |Out(ps[0], x)|) {
        assert Out(ps[0], x) == {};
      }
    } else {
      NeverWedged(ps, ops, n - 1, id, now);
      match ops[n - 1]
      case Select(sel, t) => SelectSound(ps[n - 1], sel, t);
      case Finish(lease, r, t) => FinishSound(ps[n - 1], lease, r, t);
    }
    if id in ps[n].targets && Out(ps[n], id) == {}
       && (ps[n].targets[id].circuit == Open ==> now - ps[n].targets[id].openedAt >= ps[n].settings.openDuration) {
      IdleNeverWedged(ps[n], id, now);
    }
  }
}
