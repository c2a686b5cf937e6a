/** The gateway's retry loop, as far as failover safety goes: the three variables it carries
    from one attempt to the next, against pools that other requests change in between. */
module Failover {
  import opened WeightedChoice
  import opened Upstream

  /** What the environment contributes to one attempt: the pool as it then is, the policy's
      wish, the time, whether the request got written, and whether governance refuses it. */
  datatype Round = Round(pool: Pool, preferred: string, requirePreferred: bool, now: int, wrote: bool, refused: bool)

  /** Targets have ids, under which they are stored. */
  ghost predicate RealTargets(rounds: seq<Round>) {
    forall i :: 0 <= i < |rounds| ==> Named(rounds[i].pool) && "" !in rounds[i].pool.targets
  }

  ghost predicate OneTarget(writes: seq<Target>) {
    forall i, j :: 0 <= i < |writes| && 0 <= j < |writes| ==> writes[i].id == writes[j].id
  }

  ghost predicate OneDomain(writes: seq<Target>) {
    forall i, j :: 0 <= i < |writes| && 0 <= j < |writes| ==> writes[i].domain == writes[j].domain
  }

  /** A lease is only given on a target that is safe after what was already written. */
  lemma {:induction false} LeaseIsSafe(pool: Pool, sel: Selection, now: int)
    requires Named(pool)
    ensures var answer := SelectStep(pool, sel, now).1;
      answer.Lease? ==> answer.target.id in pool.targets && pool.targets[answer.target.id].target == answer.target
                        && Safe(answer.target, sel)
  {
    SelectEffect(pool, sel, now);
    var answer := SelectStep(pool, sel, now).1;
    if answer.Lease? { CandidatesSound(pool, sel, now, answer.target.id); }
  }

  /** The loop's variables, the targets written to so far, and whether it has ended. */
  datatype Carry = Carry(previousId: string, previousDomain: string, everWrote: bool, writes: seq<Target>, ended: bool)

  const START := Carry("", "", false, [], false)

  function SelectionOf(c: Carry, round: Round, key: string, cross: bool): Selection {
    Selection(round.preferred, round.requirePreferred, c.previousId, c.previousDomain, c.everWrote, key, cross)
  }

  /** One attempt: a failed selection changes nothing, a governance refusal ends the request. */
  function Advance(c: Carry, answer: Answer, round: Round): Carry {
    if c.ended || !answer.Lease? then c
    else if round.refused then c.(ended := true)
    else Carry(answer.target.id, answer.target.domain, c.everWrote || round.wrote,
               if round.wrote then c.writes + [answer.target] else c.writes, false)
  }

  function Attempt(c: Carry, round: Round, key: string, cross: bool): Carry
    requires Named(round.pool)
  {
    Advance(c, SelectStep(round.pool, SelectionOf(c, round, key, cross), round.now).1, round)
  }

  function Attempts(rounds: seq<Round>, key: string, cross: bool, n: nat): Carry
    requires n <= |rounds| && forall i :: 0 <= i < |rounds| ==> Named(rounds[i].pool)
  {
    if n == 0 then START else Attempt(Attempts(rounds, key, cross, n - 1), rounds[n - 1], key, cross)
  }

  /** What the carried variables know about the writes so far. */
  ghost predicate CarrySafe(c: Carry, key: string, cross: bool) {
    && (c.everWrote <==> c.writes != [])
    && (key == "" ==> forall k :: 0 <= k < |c.writes| ==> c.writes[k].id == c.previousId != "")
    && (!cross && c.writes != [] && c.writes[0].domain != "" ==>
          c.previousDomain == c.writes[0].domain
          && forall k :: 0 <= k < |c.writes| ==> c.writes[k].domain == c.writes[0].domain)
  }

  lemma {:induction false} AdvanceSafe(c: Carry, answer: Answer, round: Round, key: string, cross: bool)
    requires CarrySafe(c, key, cross)
    requires answer.Lease? ==> answer.target.id != "" && Safe(answer.target, SelectionOf(c, round, key, cross))
    ensures CarrySafe(Advance(c, answer, round), key, cross)
  {}

  lemma {:induction false} AttemptsSafe(rounds: seq<Round>, key: string, cross: bool, n: nat)
    requires RealTargets(rounds) && n <= |rounds|
    ensures CarrySafe(Attempts(rounds, key, cross, n), key, cross)
  {
    if n > 0 {
      AttemptsSafe(rounds, key, cross, n - 1);
      var c, round := Attempts(rounds, key, cross, n - 1), rounds[n - 1];
      var answer := SelectStep(round.pool, SelectionOf(c, round, key, cross), round.now).1;
      LeaseIsSafe(round.pool, SelectionOf(c, round, key, cross), round.now);
      AdvanceSafe(c, answer, round, key, cross);
    }
  }

  /** Failover safety of one request: without an idempotency key all writes go to one target;
      with cross-domain failover off they all go to one idempotency domain exactly when the
      first target written to names one, or none of them does. */
  lemma {:induction false} FailoverIsSafe(rounds: seq<Round>, key: string, cross: bool)
    requires RealTargets(rounds)
    ensures key == "" ==> OneTarget(Attempts(rounds, key, cross, |rounds|).writes)
    ensures var w := Attempts(rounds, key, cross, |rounds|).writes;
      !cross ==> (OneDomain(w) <==> w == [] || w[0].domain != "" || forall k :: 0 <= k < |w| ==> w[k].domain == "")
  {
    AttemptsSafe(rounds, key, cross, |rounds|);
  }

  /** Every target that may be selected names its domain. */
  ghost predicate DomainsNamed(rounds: seq<Round>) {
    forall i, id :: 0 <= i < |rounds| && id in rounds[i].pool.targets ==> rounds[i].pool.targets[id].target.domain != ""
  }

  lemma {:induction false} WritesNameDomains(rounds: seq<Round>, key: string, cross: bool, n: nat)
    requires RealTargets(rounds) && DomainsNamed(rounds) && n <= |rounds|
    ensures forall t :: t in Attempts(rounds, key, cross, n).writes ==> t.domain != ""
  {
    if n > 0 {
      WritesNameDomains(rounds, key, cross, n - 1);
      var c, round := Attempts(rounds, key, cross, n - 1), rounds[n - 1];
      LeaseIsSafe(round.pool, SelectionOf(c, round, key, cross), round.now);
    }
  }

  /** What a configuration can promise: if every target names a domain, and cross-domain failover
      is off, a request is written to one domain only. */
  lemma {:induction false} NamedDomainsAreSafe(rounds: seq<Round>, key: string)
    requires RealTargets(rounds) && DomainsNamed(rounds)
    ensures OneDomain(Attempts(rounds, key, false, |rounds|).writes)
  {
    FailoverIsSafe(rounds, key, false);
    WritesNameDomains(rounds, key, false, |rounds|);
  }

  /** What the selection of each round answered. */
  ghost function Answers(rounds: seq<Round>, key: string, cross: bool, n: nat): (answers: seq<Answer>)
    requires n <= |rounds| && RealTargets(rounds)
    ensures |answers| == n
  {
    if n == 0 then [] else
      var round := rounds[n - 1];
      Answers(rounds, key, cross, n - 1)
      + [SelectStep(round.pool, SelectionOf(Attempts(rounds, key, cross, n - 1), round, key, cross), round.now).1]
  }

  /** Governance refused a target that one of the rounds was given. */
  predicate Refused(answers: seq<Answer>, rounds: seq<Round>)
    requires |answers| <= |rounds|
  {
    exists i :: 0 <= i < |answers| && answers[i].Lease? && rounds[i].refused
  }

  /** The targets given and written to before any refusal. */
  function Written(answers: seq<Answer>, rounds: seq<Round>): seq<Target>
    requires |answers| <= |rounds|
  {
    if answers == [] then [] else
      var n := |answers| - 1;
      Written(answers[..n], rounds)
      + if answers[n].Lease? && rounds[n].wrote && !Refused(answers, rounds) then [answers[n].target] else []
  }

  lemma {:induction false} RefusedMore(answers: seq<Answer>, a: Answer, rounds: seq<Round>)
    requires |answers| < |rounds|
    ensures Refused(answers + [a], rounds) <==> Refused(answers, rounds) || (a.Lease? && rounds[|answers|].refused)
  {
    if Refused(answers, rounds) {
      var i :| 0 <= i < |answers| && answers[i].Lease? && rounds[i].refused;
      assert (answers + [a])[i] == answers[i];
    }
    assert (answers + [a])[|answers|] == a;
  }

  predicate Told(c: Carry, answers: seq<Answer>, rounds: seq<Round>)
    requires |answers| <= |rounds|
  {
    c.ended == Refused(answers, rounds) && c.writes == Written(answers, rounds)
  }

  lemma {:induction false} AdvanceTold(c: Carry, answers: seq<Answer>, a: Answer, rounds: seq<Round>)
    requires |answers| < |rounds| && Told(c, answers, rounds)
    ensures Told(Advance(c, a, rounds[|answers|]), answers + [a], rounds)
  {
    RefusedMore(answers, a, rounds);
    assert (answers + [a])[..|answers|] == answers;
  }

  lemma {:induction false} NextRound(rounds: seq<Round>, key: string, cross: bool, n: nat) returns (a: Answer)
    requires RealTargets(rounds) && 0 < n <= |rounds|
    ensures Attempts(rounds, key, cross, n) == Advance(Attempts(rounds, key, cross, n - 1), a, rounds[n - 1])
    ensures Answers(rounds, key, cross, n) == Answers(rounds, key, cross, n - 1) + [a]
  {
    a := Answers(rounds, key, cross, n)[n - 1];
  }

  lemma {:induction false} RoundTold(c: Carry, next: Carry, answers: seq<Answer>, more: seq<Answer>, a: Answer,
                                     rounds: seq<Round>)
    requires |answers| < |rounds| && Told(c, answers, rounds)
    requires next == Advance(c, a, rounds[|answers|]) && more == answers + [a]
    ensures Told(next, more, rounds)
  {
    AdvanceTold(c, answers, a, rounds);
  }

  /** A request is written to exactly the targets it was given, once per round that wrote, up to
      the first refusal by governance; that ends it, and nothing else does. */
  lemma {:induction false} WritesAreLeases(rounds: seq<Round>, key: string, cross: bool, n: nat)
    requires RealTargets(rounds) && n <= |rounds|
    ensures Told(Attempts(rounds, key, cross, n), Answers(rounds, key, cross, n), rounds)
  {
    if n == 0 {
      assert Told(START, [], rounds);
    } else {
      WritesAreLeases(rounds, key, cross, n - 1);
      var a := NextRound(rounds, key, cross, n);
      RoundTold(Attempts(rounds, key, cross, n - 1), Attempts(rounds, key, cross, n), Answers(rounds, key, cross, n - 1),
                Answers(rounds, key, cross, n), a, rounds);
    }
  }

  method RetryLoop(rounds: seq<Round>, idempotencyKey: string, allowCrossDomain: bool) returns (writes: seq<Target>)
    requires RealTargets(rounds)
    ensures writes == Attempts(rounds, idempotencyKey, allowCrossDomain, |rounds|).writes
    ensures idempotencyKey == "" ==> OneTarget(writes)
    ensures !allowCrossDomain && writes != [] && writes[0].domain != "" ==> OneDomain(writes)
  {
    var previousTargetId, previousTargetDomain, everWroteRequest, ended := "", "", false, false;
    writes := [];
    for i := 0 to |rounds|
      invariant Carry(previousTargetId, previousTargetDomain, everWroteRequest, writes, ended)
             == Attempts(rounds, idempotencyKey, allowCrossDomain, i)
    {
      var round := rounds[i];
      var sel := Selection(round.preferred, round.requirePreferred, previousTargetId, previousTargetDomain,
                           everWroteRequest, idempotencyKey, allowCrossDomain);
      var answer := SelectStep(round.pool, sel, round.now).1;
      if !ended && answer.Lease? {
        if round.refused {
          ended := true;
        } else {
          previousTargetId, previousTargetDomain := answer.target.id, answer.target.domain;
          everWroteRequest := everWroteRequest || round.wrote;
          if round.wrote { writes := writes + [answer.target]; }
        }
      }
    }
    FailoverIsSafe(rounds, idempotencyKey, allowCrossDomain);
  }

  // ---------------------------------------------------------------- a first write without a domain

  /** A pool of two targets: the preferred one names no domain, the other one does. */
  function Pair(strategy: Strategy, settings: Settings, none: Target, some: Target): Pool {
    Pool(strategy, settings, [none.id, some.id], map[none.id := Fresh(none), some.id := Fresh(some)], 0, map[], 0)
  }

  function Fresh(t: Target): Health { Health(t, 0, 0, 0, 0, Closed, 0, 0) }

  ghost predicate PairOf(none: Target, some: Target) {
    && none.id != some.id && none.id != "" && some.id != ""
    && none.domain == "" && some.domain != "" && none.maxActive == 0 && some.maxActive == 0
  }

  lemma {:induction false} PreferredIsCandidate(p: Pool, none: Target, some: Target, t: Target, sel: Selection,
                                                now: int)
    requires PairOf(none, some) && p.strategy != PrimaryOnly && (t == none || t == some)
    requires p == Pair(p.strategy, p.settings, none, some) && sel.preferred == t.id && Safe(t, sel)
    ensures Candidates(p, sel, now) == [t.id]
  {
    assert Eligible(p, sel, now, if t == none then 0 else 1);
    EligibleSound(p, sel, now, |p.order|);
    assert t.id in EligibleUpTo(p, sel, now, |p.order|);
  }

  lemma {:induction false} CandidateIsRoomy(p: Pool, none: Target, some: Target, t: Target, sel: Selection, now: int)
    requires PairOf(none, some) && (t == none || t == some)
    requires p == Pair(p.strategy, p.settings, none, some) && Candidates(p, sel, now) == [t.id]
    ensures Roomy(p, sel, now) == [t]
  {
    CandidatesSound(p, sel, now, t.id);
    assert RoomyUpTo(Look(p, now).targets, [t.id], 0) == [];
  }

  /** The policy asks for one of the two, and nothing forbids it. */
  lemma {:induction false} PreferredIsChosen(strategy: Strategy, settings: Settings, none: Target, some: Target,
                                             t: Target, sel: Selection, now: int)
    requires PairOf(none, some) && strategy != PrimaryOnly && (t == none || t == some)
    requires sel.preferred == t.id && Safe(t, sel)
    ensures SelectStep(Pair(strategy, settings, none, some), sel, now).1 == Lease(0, t)
  {
    var p := Pair(strategy, settings, none, some);
    PreferredIsCandidate(p, none, some, t, sel, now);
    CandidateIsRoomy(p, none, some, t, sel, now);
  }

  /** One more attempt that is leased, not refused and written. */
  lemma {:induction false} NextWrite(rounds: seq<Round>, key: string, cross: bool, n: nat, c: Carry, t: Target)
    requires RealTargets(rounds) && n < |rounds| && rounds[n].wrote && !rounds[n].refused
    requires Attempts(rounds, key, cross, n) == c && !c.ended
    requires SelectStep(rounds[n].pool, SelectionOf(c, rounds[n], key, cross), rounds[n].now).1 == Lease(0, t)
    ensures Attempts(rounds, key, cross, n + 1) == Carry(t.id, t.domain, true, c.writes + [t], false)
  {}

  /** Whoever asks the pool for this target gets it, if it is safe. */
  ghost predicate Serves(pool: Pool, t: Target, now: int) {
    Named(pool) && forall sel: Selection :: sel.preferred == t.id && Safe(t, sel) ==>
      SelectStep(pool, sel, now).1 == Lease(0, t)
  }

  lemma {:induction false} PairServes(strategy: Strategy, settings: Settings, none: Target, some: Target, now: int)
    requires PairOf(none, some) && strategy != PrimaryOnly
    ensures Serves(Pair(strategy, settings, none, some), none, now)
    ensures Serves(Pair(strategy, settings, none, some), some, now)
  {
    forall sel: Selection, t | (t == none || t == some) && sel.preferred == t.id && Safe(t, sel)
      ensures SelectStep(Pair(strategy, settings, none, some), sel, now).1 == Lease(0, t)
    {
      PreferredIsChosen(strategy, settings, none, some, t, sel, now);
    }
  }

  lemma {:induction false} BothWritten(rounds: seq<Round>, pool: Pool, none: Target, some: Target, key: string,
                                       now: int, n: nat)
    requires PairOf(none, some) && key != "" && n == |rounds| == 2 && RealTargets(rounds)
    requires Serves(pool, none, now) && Serves(pool, some, now)
    requires rounds[0] == Round(pool, none.id, false, now, true, false)
    requires rounds[1] == Round(pool, some.id, false, now, true, false)
    ensures Attempts(rounds, key, false, n).writes == [none] + [some]
  {
    var second := Carry(none.id, none.domain, true, [] + [none], false);
    NextWrite(rounds, key, false, n - 2, START, none);
    NextWrite(rounds, key, false, n - 1, second, some);
  }

  /** Why the first target must name a domain: the same two targets, of which the first written
      to names none, get one write each although cross-domain failover is off. */
  lemma {:induction false} EmptyDomainCrosses(strategy: Strategy, settings: Settings, none: Target, some: Target,
                                              key: string, now: int)
    requires PairOf(none, some) && strategy != PrimaryOnly && key != ""
    ensures var pool := Pair(strategy, settings, none, some);
      var rounds := [Round(pool, none.id, false, now, true, false), Round(pool, some.id, false, now, true, false)];
      RealTargets(rounds) && !OneDomain(Attempts(rounds, key, false, |rounds|).writes)
  {
    var pool := Pair(strategy, settings, none, some);
    var rounds := [Round(pool, none.id, false, now, true, false), Round(pool, some.id, false, now, true, false)];
    PairServes(strategy, settings, none, some, now);
    BothWritten(rounds, pool, none, some, key, now, |rounds|);
    var w := Attempts(rounds, key, false, |rounds|).writes;
    assert w[0] == none && w[1] == some;
  }
}
