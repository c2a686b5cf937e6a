/** The circuit breaker over whole runs of the pool: its counts are those of the reports, its
    transitions are decided by them, and a circuit that has opened keeps its target out. */
module UpstreamCircuit {
  import opened WeightedChoice
  import opened Upstream

  // ---------------------------------------------------------------- what was reported

  /** The operation is the report of a lease on the target. */
  predicate Reports(p: Pool, op: Op, id: string) {
    op.Finish? && op.report.Report? && op.lease in p.leases && p.leases[op.lease] == id
  }

  /** A failure of the target: not one the client or its credentials caused, nor a refusal to
      repeat a request. */
  predicate IsFailure(o: Observation) {
    !o.success && o.category != "auth" && o.category != "client" && o.category != "duplicate_risk"
  }

  predicate Succeeds(p: Pool, op: Op, id: string) { Reports(p, op, id) && op.report.observation.success }

  predicate Fails(p: Pool, op: Op, id: string) { Reports(p, op, id) && IsFailure(op.report.observation) }

  predicate Throttles(p: Pool, op: Op, id: string) {
    Fails(p, op, id) && op.report.observation.category == "rate_limit"
  }

  predicate Has(p: Pool, id: string) { id in p.targets }

  /** The circuit of the target closes between the two states. */
  predicate Closes(p: Pool, q: Pool, id: string) {
    Has(p, id) && Has(q, id) && p.targets[id].circuit != Closed && q.targets[id].circuit == Closed
  }

  ghost predicate Fits(ps: seq<Pool>, ops: seq<Op>, n: nat, id: string) {
    n <= |ops| < |ps| && Has(ps[0], id)
  }

  /** Successes reported so far. */
  ghost function Successes(ps: seq<Pool>, ops: seq<Op>, n: nat, id: string): nat
    requires Fits(ps, ops, n, id)
  {
    if n == 0 then ps[0].targets[id].successes else
      Successes(ps, ops, n - 1, id) + if Succeeds(ps[n - 1], ops[n - 1], id) then 1 else 0
  }

  /** Failures reported since the circuit last closed. */
  ghost function Failures(ps: seq<Pool>, ops: seq<Op>, n: nat, id: string): nat
    requires Fits(ps, ops, n, id)
  {
    if n == 0 then ps[0].targets[id].failures
    else if Closes(ps[n - 1], ps[n], id) then 0
    else Failures(ps, ops, n - 1, id) + if Fails(ps[n - 1], ops[n - 1], id) then 1 else 0
  }

  ghost function Throttled(ps: seq<Pool>, ops: seq<Op>, n: nat, id: string): nat
    requires Fits(ps, ops, n, id)
  {
    if n == 0 then ps[0].targets[id].rateLimited else
      Throttled(ps, ops, n - 1, id) + if Throttles(ps[n - 1], ops[n - 1], id) then 1 else 0
  }

  // ---------------------------------------------------------------- one step on one target

  /** Enough was reported, and enough of it failed. */
  predicate TooMany(c: Settings, failures: int, successes: int) {
    failures + successes >= c.minimumRequests && failures * 100 >= (failures + successes) * c.failurePercent
  }

  predicate SameCounts(h: Health, k: Health) {
    h.failures == k.failures && h.successes == k.successes && h.rateLimited == k.rateLimited
  }

  /** The circuit stays, or goes from open to half-open once its period is over. */
  predicate OnlyProbed(h: Health, k: Health, c: Settings, now: int) {
    && k.openedAt == h.openedAt
    && (k.circuit == h.circuit || (h.circuit == Open && k.circuit == HalfOpen && now - h.openedAt >= c.openDuration))
  }

  predicate Counted(h: Health, k: Health, o: Observation) {
    && k.successes == h.successes + (if o.success then 1 else 0)
    && k.failures == (if o.success && h.circuit != Closed then 0 else h.failures + if IsFailure(o) then 1 else 0)
    && k.rateLimited == h.rateLimited + if IsFailure(o) && o.category == "rate_limit" then 1 else 0
  }

  /** The table of transitions, with the counts after the report. */
  predicate Reacts(h: Health, k: Health, c: Settings, o: Observation, now: int, failures: int, successes: int) {
    && (o.success ==> k.circuit == Closed)
    && (!o.success && (!IsFailure(o) || !c.enabled) ==> k.circuit == h.circuit && k.openedAt == h.openedAt)
    && (IsFailure(o) && c.enabled ==>
          match h.circuit
          case HalfOpen => k.circuit == Open && k.openedAt == now
          case Closed =>
            if TooMany(c, failures, successes) then k.circuit == Open && k.openedAt == now else k.circuit == Closed
          case Open =>
            k.circuit == Open && k.openedAt == if TooMany(c, failures, successes) then now else h.openedAt)
  }

  lemma {:induction false} FinishedReacts(h: Health, c: Settings, o: Observation, now: int)
    ensures var k := Finished(h, c, Report(o), now);
      Counted(h, k, o) && Reacts(h, k, c, o, now, k.failures, k.successes)
  {}

  predicate Unreported(h: Health, k: Health, c: Settings, now: int) { SameCounts(h, k) && OnlyProbed(h, k, c, now) }

  lemma {:induction false} SelectTouches(p: Pool, sel: Selection, now: int, id: string)
    requires Named(p) && Has(p, id)
    ensures Has(SelectStep(p, sel, now).0, id)
    ensures Unreported(p.targets[id], SelectStep(p, sel, now).0.targets[id], p.settings, now)
    ensures SelectStep(p, sel, now).0.settings == p.settings
  {
    SelectEffect(p, sel, now);
  }

  lemma {:induction false} FinishTouches(p: Pool, lease: nat, r: Report, now: int, id: string)
    requires Has(p, id)
    ensures var q, op := FinishStep(p, lease, r, now), Finish(lease, r, now);
      && Has(q, id) && q.settings == p.settings
      && (if Reports(p, op, id)
          then q.targets[id] == Finished(p.targets[id], p.settings, r, now)
          else Unreported(p.targets[id], q.targets[id], p.settings, now))
  {}

  lemma {:induction false} StepTouches(p: Pool, op: Op, id: string)
    requires Named(p) && Has(p, id)
    ensures var q := Step(p, op);
      && Has(q, id) && q.settings == p.settings
      && (if Reports(p, op, id)
          then q.targets[id] == Finished(p.targets[id], p.settings, op.report, op.now)
          else Unreported(p.targets[id], q.targets[id], p.settings, op.now))
  {
    match op
    case Select(sel, now) => SelectTouches(p, sel, now, id);
    case Finish(lease, r, now) => FinishTouches(p, lease, r, now, id);
  }

  // ---------------------------------------------------------------- over runs

  lemma {:induction false} RunHas(ps: seq<Pool>, ops: seq<Op>, n: nat, id: string)
    requires IsRun(ps, ops) && n <= |ops| && Has(ps[0], id)
    ensures Has(ps[n], id) && ps[n].settings == ps[0].settings && Normalized(ps[n].settings)
  {
    if n > 0 {
      RunHas(ps, ops, n - 1, id);
      StepTouches(ps[n - 1], ops[n - 1], id);
    }
  }

  ghost predicate Tallied(ps: seq<Pool>, ops: seq<Op>, n: nat, id: string)
    requires Fits(ps, ops, n, id)
  {
    && Has(ps[n], id)
    && ps[n].targets[id].successes == Successes(ps, ops, n, id)
    && ps[n].targets[id].failures == Failures(ps, ops, n, id)
    && ps[n].targets[id].rateLimited == Throttled(ps, ops, n, id)
  }

  lemma {:induction false} TallyStep(ps: seq<Pool>, ops: seq<Op>, n: nat, id: string)
    requires IsRun(ps, ops) && 0 < n <= |ops| && Has(ps[0], id) && Tallied(ps, ops, n - 1, id)
    ensures Tallied(ps, ops, n, id)
  {
    var p, q, op := ps[n - 1], ps[n], ops[n - 1];
    StepTouches(p, op, id);
    if Reports(p, op, id) { FinishedReacts(p.targets[id], p.settings, op.report.observation, op.now); }
  }

  lemma {:induction false} RunTallied(ps: seq<Pool>, ops: seq<Op>, n: nat, id: string)
    requires IsRun(ps, ops) && n <= |ops| && Has(ps[0], id)
    ensures Tallied(ps, ops, n, id)
  {
    if n > 0 {
      RunTallied(ps, ops, n - 1, id);
      TallyStep(ps, ops, n, id);
    }
  }

  /** The counts are those of the reports: all successes, and the failures since the circuit
      last closed. */
  lemma {:induction false} CountsAreReports(ps: seq<Pool>, ops: seq<Op>, n: nat, id: string)
    requires IsRun(ps, ops) && n <= |ops| && Has(ps[0], id)
    ensures Has(ps[n], id)
    ensures ps[n].targets[id].successes == Successes(ps, ops, n, id)
    ensures ps[n].targets[id].failures == Failures(ps, ops, n, id)
    ensures ps[n].targets[id].rateLimited == Throttled(ps, ops, n, id)
  {
    RunTallied(ps, ops, n, id);
  }

  /** Every report moves the circuit as the counts of the run demand: a success closes it; a
      failure opens a closed one exactly when both thresholds are met, and reopens a half-open
      one; anything else leaves it alone. */
  lemma {:induction false} ReportMovesCircuit(ps: seq<Pool>, ops: seq<Op>, n: nat, id: string)
    requires IsRun(ps, ops) && n < |ops| && Has(ps[0], id) && Reports(ps[n], ops[n], id)
    ensures Has(ps[n], id) && Has(ps[n + 1], id)
    ensures Reacts(ps[n].targets[id], ps[n + 1].targets[id], ps[0].settings, ops[n].report.observation, ops[n].now,
                   Failures(ps, ops, n + 1, id), Successes(ps, ops, n + 1, id))
  {
    RunHas(ps, ops, n, id);
    CountsAreReports(ps, ops, n + 1, id);
    StepTouches(ps[n], ops[n], id);
    FinishedReacts(ps[n].targets[id], ps[n].settings, ops[n].report.observation, ops[n].now);
  }

  /** Without a report nothing happens to a circuit but that an open one is found half-open once
      its period is over. */
  lemma {:induction false} SilenceKeepsCircuit(ps: seq<Pool>, ops: seq<Op>, n: nat, id: string)
    requires IsRun(ps, ops) && n < |ops| && Has(ps[0], id) && !Reports(ps[n], ops[n], id)
    ensures Has(ps[n], id) && Has(ps[n + 1], id)
    ensures OnlyProbed(ps[n].targets[id], ps[n + 1].targets[id], ps[0].settings, ops[n].now)
  {
    RunHas(ps, ops, n, id);
    StepTouches(ps[n], ops[n], id);
  }

  lemma {:induction false} OpenIsNoCandidate(p: Pool, sel: Selection, now: int, id: string)
    requires Has(p, id) && p.targets[id].circuit == Open && now - p.targets[id].openedAt < p.settings.openDuration
    ensures id !in Candidates(p, sel, now)
  {
    if id in Candidates(p, sel, now) { CandidatesSound(p, sel, now, id); }
  }

  /** From operation m on, up to n, nobody reports a success and no time passes beyond the end. */
  ghost predicate Quiet(ps: seq<Pool>, ops: seq<Op>, m: nat, n: nat, id: string, from: int, to: int)
    requires n <= |ops| < |ps|
  {
    forall i :: m <= i < n ==> !Succeeds(ps[i], ops[i], id) && from <= ops[i].now < to
  }

  /** Open, since no earlier than the given time. */
  predicate OpenSince(p: Pool, id: string, from: int) {
    Has(p, id) && p.targets[id].circuit == Open && p.targets[id].openedAt >= from
  }

  lemma {:induction false} StepStaysOpen(ps: seq<Pool>, ops: seq<Op>, n: nat, id: string, from: int)
    requires IsRun(ps, ops) && n < |ops| && Has(ps[0], id) && OpenSince(ps[n], id, from)
    requires !Succeeds(ps[n], ops[n], id) && from <= ops[n].now < from + ps[0].settings.openDuration
    ensures OpenSince(ps[n + 1], id, from)
  {
    if Reports(ps[n], ops[n], id) {
      ReportMovesCircuit(ps, ops, n, id);
    } else {
      SilenceKeepsCircuit(ps, ops, n, id);
    }
  }

  lemma {:induction false} StaysOpen(ps: seq<Pool>, ops: seq<Op>, m: nat, n: nat, id: string, from: int)
    requires IsRun(ps, ops) && m <= n <= |ops| && Has(ps[0], id) && OpenSince(ps[m], id, from)
    requires Quiet(ps, ops, m, n, id, from, from + ps[0].settings.openDuration)
    ensures OpenSince(ps[n], id, from)
    decreases n - m
  {
    if n > m {
      StaysOpen(ps, ops, m, n - 1, id, from);
      StepStaysOpen(ps, ops, n - 1, id, from);
    }
  }

  /** A circuit that has opened keeps its target out for the whole period: whatever is selected
      or reported meanwhile, short of a success, the target is no candidate. */
  lemma {:induction false} OpenKeepsOut(ps: seq<Pool>, ops: seq<Op>, m: nat, n: nat, id: string, sel: Selection,
                                        now: int)
    requires IsRun(ps, ops) && m < n <= |ops| && Has(ps[0], id) && Fails(ps[m], ops[m], id)
    requires OpenSince(ps[m + 1], id, ops[m].now)
    requires Quiet(ps, ops, m + 1, n, id, ops[m].now, ops[m].now + ps[0].settings.openDuration)
    requires now < ops[m].now + ps[0].settings.openDuration
    ensures OpenSince(ps[n], id, ops[m].now) && id !in Candidates(ps[n], sel, now)
  {
    StaysOpen(ps, ops, m + 1, n, id, ops[m].now);
    RunHas(ps, ops, n, id);
    OpenIsNoCandidate(ps[n], sel, now, id);
  }

  lemma {:induction false} AllFailed(c: Settings, failures: nat)
    requires c.failurePercent <= 100 && failures >= c.minimumRequests
    ensures TooMany(c, failures, 0)
  {
    assert failures * 100 >= failures * c.failurePercent;
  }

  lemma {:induction false} FailureOpens(ps: seq<Pool>, ops: seq<Op>, n: nat, id: string)
    requires IsRun(ps, ops) && n < |ops| && Has(ps[0], id) && Fails(ps[n], ops[n], id)
    requires ps[0].settings.enabled && ps[0].settings.failurePercent <= 100
    requires Successes(ps, ops, n + 1, id) == 0 && Failures(ps, ops, n + 1, id) >= ps[0].settings.minimumRequests
    ensures Has(ps[n + 1], id) && ps[n + 1].targets[id].circuit != Closed
  {
    ReportMovesCircuit(ps, ops, n, id);
    AllFailed(ps[0].settings, Failures(ps, ops, n + 1, id));
  }

  /** Neither a success nor a failure was reported. */
  lemma {:induction false} NothingCloses(ps: seq<Pool>, ops: seq<Op>, n: nat, id: string)
    requires IsRun(ps, ops) && n < |ops| && Has(ps[0], id)
    requires !Fails(ps[n], ops[n], id) && !Succeeds(ps[n], ops[n], id)
    ensures Has(ps[n], id) && Has(ps[n + 1], id)
    ensures ps[n + 1].targets[id].circuit == Closed ==> ps[n].targets[id].circuit == Closed
  {
    if Reports(ps[n], ops[n], id) {
      ReportMovesCircuit(ps, ops, n, id);
    } else {
      SilenceKeepsCircuit(ps, ops, n, id);
    }
  }

  /** A target that only ever fails is shut out: once the minimum number of requests has been
      reported, its circuit is not closed. */
  lemma {:induction false} FailingTargetOpens(ps: seq<Pool>, ops: seq<Op>, n: nat, id: string)
    requires IsRun(ps, ops) && n <= |ops| && Has(ps[0], id)
    requires ps[0].targets[id].failures == 0 && ps[0].settings.enabled && ps[0].settings.failurePercent <= 100
    requires Successes(ps, ops, n, id) == 0 && Failures(ps, ops, n, id) >= ps[0].settings.minimumRequests
    ensures Has(ps[n], id) && ps[n].targets[id].circuit != Closed
  {
    if n > 0 {
      if Fails(ps[n - 1], ops[n - 1], id) {
        FailureOpens(ps, ops, n - 1, id);
      } else {
        NothingCloses(ps, ops, n - 1, id);
        FailingTargetOpens(ps, ops, n - 1, id);
      }
    } else {
      RunHas(ps, ops, n, id);
    }
  }

  // ---------------------------------------------------------------- half-open leases

  /** The step gives out a lease on the target. */
  predicate Grants(p: Pool, q: Pool, id: string) {
    q.issued == p.issued + 1 && p.issued in q.leases && q.leases[p.issued] == id
  }

  /** A lease is given out on a circuit found half-open. */
  predicate Tries(p: Pool, q: Pool, op: Op, id: string) {
    op.Select? && Grants(p, q, id) && Has(q, id) && q.targets[id].circuit == HalfOpen
  }

  /** A lease comes back to a half-open circuit, whenever it was taken. */
  predicate Returns(p: Pool, op: Op, id: string) {
    && op.Finish? && op.lease in p.leases && p.leases[op.lease] == id && Has(p, id)
    && p.targets[id].circuit == HalfOpen
  }

  ghost function Tried(ps: seq<Pool>, ops: seq<Op>, n: nat, id: string): nat
    requires Fits(ps, ops, n, id)
  {
    if n == 0 then 0 else Tried(ps, ops, n - 1, id) + if Tries(ps[n - 1], ps[n], ops[n - 1], id) then 1 else 0
  }

  ghost function CameBack(ps: seq<Pool>, ops: seq<Op>, n: nat, id: string): nat
    requires Fits(ps, ops, n, id)
  {
    if n == 0 then 0 else CameBack(ps, ops, n - 1, id) + if Returns(ps[n - 1], ops[n - 1], id) then 1 else 0
  }

  lemma {:induction false} GrantTries(q: Pool, target: string, op: Op, id: string)
    requires Has(q, id) && Has(q, target) && op.Select?
    ensures var next := Granted(q, target);
      && Has(next, id) && (Grants(q, next, id) <==> id == target)
      && next.targets[id].halfOpenLeases == q.targets[id].halfOpenLeases + if Tries(q, next, op, id) then 1 else 0
  {}

  lemma {:induction false} LookTries(p: Pool, now: int, id: string)
    requires Has(p, id)
    ensures var q := Look(p, now);
      && Has(q, id) && q.targets[id].halfOpenLeases == p.targets[id].halfOpenLeases && q.issued == p.issued
      && q.leases == p.leases
  {}

  lemma {:induction false} SelectTries(p: Pool, sel: Selection, now: int, id: string)
    requires Named(p) && Has(p, id)
    ensures var q := SelectStep(p, sel, now).0;
      && Has(q, id)
      && q.targets[id].halfOpenLeases
         == p.targets[id].halfOpenLeases + if Tries(p, q, Select(sel, now), id) then 1 else 0
  {
    SelectEffect(p, sel, now);
    LookTries(p, now, id);
    var answer := SelectStep(p, sel, now).1;
    if answer.Lease? { GrantTries(Look(p, now), answer.target.id, Select(sel, now), id); }
  }

  lemma {:induction false} FinishReturns(p: Pool, lease: nat, r: Report, now: int, id: string)
    requires Has(p, id) && p.targets[id].halfOpenLeases >= 0
    ensures var q, h := FinishStep(p, lease, r, now), p.targets[id].halfOpenLeases;
      && Has(q, id)
      && q.targets[id].halfOpenLeases == if Returns(p, Finish(lease, r, now), id) && h > 0 then h - 1 else h
  {}

  lemma {:induction false} TrialStep(p: Pool, q: Pool, op: Op, id: string)
    requires Named(p) && Has(p, id) && q == Step(p, op) && p.targets[id].halfOpenLeases >= 0
    ensures Has(q, id)
    ensures var h := p.targets[id].halfOpenLeases + if Tries(p, q, op, id) then 1 else 0;
      q.targets[id].halfOpenLeases == if Returns(p, op, id) && h > 0 then h - 1 else h
  {
    match op
    case Select(sel, now) => SelectTries(p, sel, now, id);
    case Finish(lease, r, now) => FinishReturns(p, lease, r, now, id);
  }

  lemma {:induction false} TrialsCounted(ps: seq<Pool>, ops: seq<Op>, n: nat, id: string)
    requires IsRun(ps, ops) && n <= |ops| && Has(ps[0], id)
    ensures Has(ps[n], id) && 0 <= ps[n].targets[id].halfOpenLeases <= Tried(ps, ops, n, id)
    ensures Tried(ps, ops, n, id) - CameBack(ps, ops, n, id) <= ps[n].targets[id].halfOpenLeases
  {
    if n > 0 {
      TrialsCounted(ps, ops, n - 1, id);
      TrialStep(ps[n - 1], ps[n], ops[n - 1], id);
    }
  }

  /** The half-open count is at least what was given out half-open less what came back so, and it
      is at most HalfOpenMax: so many trials may be out beyond the leases that have come back. */
  lemma {:induction false} TrialsAreLimited(ps: seq<Pool>, ops: seq<Op>, n: nat, id: string)
    requires IsRun(ps, ops) && n <= |ops| && Has(ps[0], id)
    ensures Has(ps[n], id) && 0 <= ps[n].targets[id].halfOpenLeases <= Tried(ps, ops, n, id)
    ensures Tried(ps, ops, n, id) - CameBack(ps, ops, n, id) <= ps[n].targets[id].halfOpenLeases
    ensures ps[n].targets[id].halfOpenLeases <= ps[0].settings.halfOpenMax
  {
    RunHas(ps, ops, n, id);
    TrialsCounted(ps, ops, n, id);
    NeverWedged(ps, ops, n, id, 0);
    assert Sane(ps[n].targets[id], ps[n].settings, |Out(ps[n], id)|);
  }
}
