/** The upstream manager's object: selection and lease completion in place. */
module UpstreamManager {
  import opened WeightedChoice
  import opened Upstream

  class Manager {
    var strategy: Strategy
    var settings: Settings
    var order: seq<string>
    var targets: map<string, Health>
    var cursor: nat
    var leases: map<nat, string>
    var issued: nat

    function Model(): Pool reads this { Pool(strategy, settings, order, targets, cursor, leases, issued) }

    /** One pass over the targets: probe each that is looked at, keep those that may be used. */
    method CollectEligible(sel: Selection, now: int) returns (ids: seq<string>)
      modifies this`targets
      ensures Model() == Look(old(Model()), now)
      ensures ids == EligibleUpTo(old(Model()), sel, now, |order|)
    {
      ids := [];
      ghost var before := Model();
      assert ProbedUpTo(before, now, 0) == targets;
      for i := 0 to |order|
        invariant targets == ProbedUpTo(before, now, i)
        invariant ids == EligibleUpTo(before, sel, now, i)
      {
        ProbeNext(before, now, i);
        if strategy == PrimaryOnly && i != 0 { continue; }
        var id := order[i];
        if id !in targets { continue; }
        ProbeTwice(before, now, i);
        if targets[id].circuit == Open {
          if now - targets[id].openedAt < settings.openDuration { continue; }
          if settings.enabled && targets[id].halfOpenLeases >= settings.halfOpenMax { continue; }
          targets := targets[id := targets[id].(circuit := HalfOpen)];
        }
        var h := targets[id];
        if h.circuit == HalfOpen && h.halfOpenLeases >= settings.halfOpenMax { continue; }
        if sel.previousId != "" && sel.wrote && sel.idempotencyKey == "" && h.target.id != sel.previousId { continue; }
        if sel.previousDomain != "" && sel.wrote && !sel.allowCrossDomain && h.target.domain != sel.previousDomain {
          continue;
        }
        ids := ids + [id];
      }
    }

    /** Narrows the eligible targets to a preferred one, or away from the previous one. */
    method Narrow(sel: Selection, ids: seq<string>) returns (narrowed: seq<string>)
      ensures narrowed == Narrowed(Model(), sel, ids)
    {
      if sel.preferred != "" {
        for i := 0 to |ids|
          invariant sel.preferred !in ids[..i]
        {
          if ids[i] == sel.preferred { return [ids[i]]; }
          assert ids[..i + 1] == ids[..i] + [ids[i]];
        }
        assert ids[..|ids|] == ids;
        if sel.requirePreferred { return []; }
      }
      narrowed := ids;
      if strategy == WeightedPriority && sel.previousId != "" && |ids| > 1 && (!sel.wrote || sel.idempotencyKey != "") {
        var alternatives := AllBut(ids, sel.previousId);
        if alternatives != [] { narrowed := alternatives; }
      }
    }

    /** Whether failover safety keeps the request from some target. */
    method FindBlocked(sel: Selection) returns (blocked: bool)
      ensures blocked == SafetyBlocked(Model(), sel)
    {
      if !sel.wrote { return false; }
      for i := 0 to |order|
        invariant forall j :: 0 <= j < i && order[j] in targets ==> !Blocks(targets[order[j]].target, sel)
      {
        if order[i] !in targets { continue; }
        var t := targets[order[i]].target;
        if sel.idempotencyKey == "" && t.id != sel.previousId { return true; }
        if !sel.allowCrossDomain && sel.previousDomain != "" && t.domain != sel.previousDomain { return true; }
      }
      blocked := false;
    }

    /** Counts a report and moves the circuit. */
    method Observe(before: Health, o: Observation, now: int) returns (h: Health)
      ensures h == Observed(before, settings, o, now)
    {
      h := before;
      if o.success {
        h := h.(successes := h.successes + 1);
        if h.circuit == HalfOpen || h.circuit == Open { h := h.(circuit := Closed, failures := 0); }
        return;
      }
      if o.category == "auth" || o.category == "client" || o.category == "duplicate_risk" { return; }
      h := h.(failures := h.failures + 1);
      if o.category == "rate_limit" { h := h.(rateLimited := h.rateLimited + 1); }
      if !settings.enabled { return; }
      var requests := h.failures + h.successes;
      if h.circuit == HalfOpen { return h.(circuit := Open, openedAt := now); }
      if requests >= settings.minimumRequests && h.failures * 100 >= requests * settings.failurePercent {
        h := h.(circuit := Open, openedAt := now);
      }
    }

    method Available(ids: seq<string>) returns (roomy: seq<Target>)
      requires forall id :: id in ids ==> id in targets
      ensures roomy == RoomyUpTo(targets, ids, |ids|)
    {
      roomy := [];
      for i := 0 to |ids|
        invariant roomy == RoomyUpTo(targets, ids, i)
      {
        var h := targets[ids[i]];
        if h.target.maxActive <= 0 || h.active < h.target.maxActive { roomy := roomy + [h.target]; }
      }
    }

    method Grant(chosen: Target, next: nat) returns (answer: Answer)
      requires chosen.id in targets && next == (cursor + 1) % TWO_64
      modifies this
      ensures Model() == Granted(old(Model()), chosen.id) && answer == Lease(old(issued), chosen)
    {
      var h := targets[chosen.id];
      if h.circuit == HalfOpen { h := h.(halfOpenLeases := h.halfOpenLeases + 1); }
      h := h.(active := h.active + 1);
      answer := Lease(issued, chosen);
      targets := targets[chosen.id := h];
      cursor, leases, issued := next, leases[issued := chosen.id], issued + 1;
    }

    /** The targets to choose from, and whether there was any candidate at all. */
    method Gather(sel: Selection, now: int) returns (none: bool, roomy: seq<Target>)
      modifies this`targets
      ensures Model() == Look(old(Model()), now)
      ensures none <==> Candidates(old(Model()), sel, now) == []
      ensures roomy == Roomy(old(Model()), sel, now)
    {
      ghost var before := Model();
      var ids := CollectEligible(sel, now);
      ids := Narrow(sel, ids);
      none := ids == [];
      forall id | id in ids ensures id in targets { CandidatesSound(before, sel, now, id); }
      roomy := Available(ids);
    }

    /** A lease on the choice among the targets with room. */
    method LeaseOne(roomy: seq<Target>) returns (answer: Answer)
      requires roomy != [] && cursor < TWO_64 && forall t :: t in roomy ==> t.id in targets
      modifies this
      ensures Choice(roomy, old(cursor)).id in old(targets)
      ensures Model() == Granted(old(Model()), Choice(roomy, old(cursor)).id)
      ensures answer == Lease(old(issued), Choice(roomy, old(cursor)))
    {
      var chosen, next := Choose(roomy, cursor);
      assert chosen == Choice(roomy, cursor);
      answer := Grant(chosen, next);
    }

    method Select(sel: Selection, now: int) returns (answer: Answer)
      requires Named(Model()) && cursor < TWO_64
      modifies this
      ensures (Model(), answer) == SelectStep(old(Model()), sel, now)
    {
      ghost var before := Model();
      var blocked := FindBlocked(sel);
      var none, roomy := Gather(sel, now);
      if none { return NoTarget(blocked); }
      if roomy == [] { return Full; }
      forall t | t in roomy ensures t.id in targets { RoomyIsCandidate(before, sel, now, t); }
      answer := LeaseOne(roomy);
    }

    method Finish(lease: nat, report: Report, now: int)
      modifies this
      ensures Model() == FinishStep(old(Model()), lease, report, now)
    {
      if lease !in leases || leases[lease] !in targets { return; }
      var id := leases[lease];
      var h := targets[id];
      if h.active > 0 { h := h.(active := h.active - 1); }
      if h.circuit == HalfOpen && h.halfOpenLeases > 0 { h := h.(halfOpenLeases := h.halfOpenLeases - 1); }
      if report.Report? { h := Observe(h, report.observation, now); }
      targets := targets[id := h];
      leases := leases - {lease};
    }
  }

  method AllBut(ids: seq<string>, id: string) returns (others: seq<string>)
    ensures others == Without(ids, id)
  {
    others := [];
    for i := 0 to |ids|
      invariant others == Without(ids[..i], id)
    {
      assert ids[..i + 1][..i] == ids[..i];
      if ids[i] != id { others := others + [ids[i]]; }
    }
    assert ids[..|ids|] == ids;
  }

  /** Probing one more target of the order. */
  lemma {:induction false} ProbeNext(p: Pool, now: int, i: nat)
    requires i < |p.order|
    ensures ProbedUpTo(p, now, i + 1)
         == if Visited(p, i) && p.order[i] in p.targets
            then ProbedUpTo(p, now, i)[p.order[i] := Probed(p.targets[p.order[i]], p.settings, now)]
            else ProbedUpTo(p, now, i)
  {
    var u, v := ProbedUpTo(p, now, i + 1), ProbedUpTo(p, now, i);
    forall id | id in p.targets
      ensures Looked(p, id, i + 1) == (Looked(p, id, i) || (p.order[i] == id && Visited(p, i))) {}
    assert u.Keys == p.targets.Keys && v.Keys == p.targets.Keys;
  }

  lemma {:induction false} ProbeTwice(p: Pool, now: int, i: nat)
    requires i < |p.order| && p.order[i] in p.targets
    ensures Probed(ProbedUpTo(p, now, i)[p.order[i]], p.settings, now) == Probed(p.targets[p.order[i]], p.settings, now)
    ensures Passes(ProbedUpTo(p, now, i)[p.order[i]], p.settings, now) == Passes(p.targets[p.order[i]], p.settings, now)
  {}
}
