/** Concurrency and late bindings: the manager counts a reservation's own attempts of the current
    minute only, so a late binding may crowd an upstream. */
module GovernanceCrowding {
  import opened MapSums
  import opened GovernanceBook
  import opened GovernancePolicy
  import opened Governance
  import opened GovernanceBounds
  import opened GovernanceConcurrency
  import Late = GovernanceLateBinding
  import Glob

  // ---------------------------------------------------------------- exactly when a binding leaves a slot

  lemma {:induction false} ReboundHolds(r: Reservation, upstream: string, keys: seq<Key>,
                                        amounts: map<string, Amount>, k: Key)
    ensures Holds(ReboundReservation(r, upstream, keys, amounts), k) <==> k in keys && HasOpen(r)
  {
    var after := ReboundReservation(r, upstream, keys, amounts);
    forall i | i in r.attempts
      ensures after.attempts[i] == Rebound(r.attempts[i], keys, AmountOf(amounts, i, r.attempts[i])) {}
    if k in keys && HasOpen(r) {
      var i :| i in r.attempts && Open(r.attempts[i]);
      assert Open(after.attempts[i]) && k in after.attempts[i].keys;
    }
    if Holds(after, k) {
      var i :| i in after.attempts && Open(after.attempts[i]) && k in after.attempts[i].keys;
      assert Open(r.attempts[i]);
    }
  }

  /** The holders of a key after a binding, in terms of what is known before it. */
  ghost function HoldersAfter(rs: map<string, Reservation>, id: string, keys: seq<Key>, k: Key): int
    requires id in rs
  {
    Holders(rs - {id}, k) + if k in keys && HasOpen(rs[id]) then 1 else 0
  }

  /** A binding keeps a concurrency limit, on a key it gains, keeps or loses, exactly when that
      number does. */
  lemma {:induction false} BindingKeepsConcurrencyIff(b: Book, id: string, upstream: string, keys: seq<Key>,
                                                      amounts: map<string, Amount>, k: Key, limit: nat)
    requires id in b.reservations
    ensures Holders(Rebind(b, id, upstream, keys, amounts).reservations, k) <= limit
       <==> HoldersAfter(b.reservations, id, keys, k) <= limit
  {
    var r := b.reservations[id];
    ReboundHolds(r, upstream, keys, amounts, k);
    HoldersReplace(b.reservations, id, ReboundReservation(r, upstream, keys, amounts), k);
  }

  /** The operation leaves a slot: asked of a binding before it is made. */
  ghost predicate LeavesSlot(g: Gov, op: Op, k: Key) {
    Moves(g, op) && LimitsFor(g.config, k).maxConcurrent > 0 ==>
      HoldersAfter(g.book.reservations, op.id, BindingKeys(g, op.id, op.upstream), k)
        <= LimitsFor(g.config, k).maxConcurrent
  }

  lemma {:induction false} BindUncrowdedIff(g: Gov, h: Gov, op: Op, k: Key)
    requires op.Bind? && h == BindStep(g, op.id, op.upstream, op.now, op.ok).0 && Uncrowded(g, k)
    ensures Uncrowded(h, k) <==> LeavesSlot(g, op, k)
  {
    if Moves(g, op) {
      var r := g.book.reservations[op.id];
      var keys := BindingKeys(g, op.id, op.upstream);
      var amounts := BindingAmounts(r, BindingAmount(g, op.id, op.upstream));
      MovingBinding(g, op);
      BindingKeepsConcurrencyIff(g.book, op.id, Glob.Trim(op.upstream), keys, amounts, k,
                                 LimitsFor(g.config, k).maxConcurrent);
    } else {
      StillBinding(g, op);
    }
  }

  lemma {:induction false} StepUncrowdedIff(g: Gov, h: Gov, op: Op, k: Key)
    requires Steady(g, g.config) && Possible(g, op) && !op.Apply? && Uncrowded(g, k) && h == Step(g, op)
    ensures Uncrowded(h, k) <==> LeavesSlot(g, op, k)
  {
    if op.Bind? { BindUncrowdedIff(g, h, op, k); } else { StepUncrowded(g, op, k); }
  }

  /** The limit held in each of the states up to n. */
  ghost predicate UncrowdedUpTo(gs: seq<Gov>, n: nat, k: Key)
    requires n < |gs|
  {
    Uncrowded(gs[n], k) && (n == 0 || UncrowdedUpTo(gs, n - 1, k))
  }

  /** Each of the first n operations left a slot. */
  ghost predicate SlotsUpTo(gs: seq<Gov>, ops: seq<Op>, n: nat, k: Key)
    requires n <= |ops| < |gs|
  {
    n == 0 || (SlotsUpTo(gs, ops, n - 1, k) && LeavesSlot(gs[n - 1], ops[n - 1], k))
  }

  /** The concurrency bound, exactly: over a whole run in enforce mode it holds throughout if and
      only if every binding left a slot when it was made, late or not. */
  lemma {:induction false} ConcurrencyHeldIff(cfg: Config, gs: seq<Gov>, ops: seq<Op>, n: nat, k: Key)
    requires IsSteadyRun(cfg, gs, ops) && n <= |ops|
    ensures UncrowdedUpTo(gs, n, k) <==> SlotsUpTo(gs, ops, n, k)
  {
    if n == 0 {
      EmptyUncrowded(gs[0], k);
    } else {
      ConcurrencyHeldIff(cfg, gs, ops, n - 1, k);
      assert Uncrowded(gs[n - 1], k) ==> (Uncrowded(gs[n], k) <==> LeavesSlot(gs[n - 1], ops[n - 1], k)) by {
        RunStepIff(cfg, gs, ops, n - 1, k);
      }
      HeldNext(gs, ops, n, k);
    }
  }

  lemma {:induction false} HeldNext(gs: seq<Gov>, ops: seq<Op>, n: nat, k: Key)
    requires 0 < n <= |ops| < |gs| && (UncrowdedUpTo(gs, n - 1, k) <==> SlotsUpTo(gs, ops, n - 1, k))
    requires Uncrowded(gs[n - 1], k) ==> (Uncrowded(gs[n], k) <==> LeavesSlot(gs[n - 1], ops[n - 1], k))
    ensures UncrowdedUpTo(gs, n, k) <==> SlotsUpTo(gs, ops, n, k)
  {}

  lemma {:induction false} EmptyUncrowded(g: Gov, k: Key)
    requires g.book.reservations == map[]
    ensures Uncrowded(g, k)
  {}

  lemma {:induction false} RunStepIff(cfg: Config, gs: seq<Gov>, ops: seq<Op>, n: nat, k: Key)
    requires IsSteadyRun(cfg, gs, ops) && n < |ops|
    ensures Uncrowded(gs[n], k) ==> (Uncrowded(gs[n + 1], k) <==> LeavesSlot(gs[n], ops[n], k))
  {
    RunSteady(cfg, gs, ops, n);
    if Uncrowded(gs[n], k) { StepUncrowdedIff(gs[n], gs[n + 1], ops[n], k); }
  }

  // ---------------------------------------------------------------- a run that crowds an upstream

  /** One attempt at a time for upstream u, and no other limit. */
  const NARROW := Config(true, false, 0, 0, 0, 0, 0, 0, 0, 0, 0, 0, false, map[], [Budget(Upstream, "u", 1, 0, 0, 0)])

  const CALLER := Admission("p", "", "m", "")

  const RUN: seq<Op> := [Admit("a", CALLER, 0, true, true), Admit("b", CALLER, 0, true, true),
                         Bind("a", "u", 60, true), Bind("b", "u", 60, true)]

  function Mine(): Key { Key(Principal, "p") }

  function Target(): Key { Key(Upstream, "u") }

  function Waiting(): Reservation {
    NewReservation(CALLER, [Mine()]).(attempts := map[FIRST_ATTEMPT := NewAttempt(0, Amount(0, 0), [Mine()])])
  }

  ghost function Moved(): Reservation {
    ReboundReservation(Waiting(), "u", [Mine(), Target()], BindingAmounts(Waiting(), Amount(0, 0)))
  }

  lemma {:induction false} Spelling()
    ensures Glob.Trim("u") == "u" && Glob.Trim("a") == "a" && Glob.Trim("b") == "b"
    ensures Glob.Trim("p") == "p" && Glob.Trim("m") == "m" && Glob.Trim("") == ""
  {}

  lemma {:induction false} NarrowKeys()
    ensures BudgetKeys(NARROW, CALLER) == [Mine()]
    ensures BudgetKeys(NARROW, CALLER.(upstream := "u")) == [Mine(), Target()]
    ensures LimitsFor(NARROW, Mine()) == Limits(false, 0, 0, 0, 0)
    ensures LimitsFor(NARROW, Target()) == Limits(false, 1, 0, 0, 0)
  {
    Spelling();
    assert KeysUpTo(NARROW, CALLER, 0) == [Mine()];
    assert KeysUpTo(NARROW, CALLER.(upstream := "u"), 0) == [Mine()];
    assert LimitsUpTo(NARROW, Mine(), 0) == Limits(false, 0, 0, 0, 0);
    assert LimitsUpTo(NARROW, Target(), 0) == Limits(false, 0, 0, 0, 0);
  }

  lemma {:induction false} NarrowAmounts(keys: seq<Key>, n: nat)
    requires n <= |keys| && forall k :: k in keys ==> k == Mine() || k == Target()
    ensures TokenLimitOver(NARROW, keys, n) == 0 && CostLimitOver(NARROW, keys, n) == 0
  {
    if n > 0 {
      NarrowAmounts(keys, n - 1);
      NarrowKeys();
      assert keys[n - 1] in keys;
    }
  }

  predicate Narrow(g: Gov) { g.config == NARROW && g.journalUp && g.estimates == map[] }

  lemma {:induction false} CallerSpelled(id: string, adm: Admission)
    requires id in {"a", "b"} && adm == CALLER
    ensures ValidId(id) && Glob.Trim(id) == id && Normalize(adm) == adm
  {
    Spelling();
  }

  lemma {:induction false} CallerReserves(adm: Admission, keys: seq<Key>)
    requires adm == CALLER && keys == [Mine()]
    ensures keys == BudgetKeys(NARROW, adm) && Amounts(NARROW, map[], adm.model, keys) == Amount(0, 0)
    ensures !TenantRequired(NARROW)
  {
    NarrowKeys();
    NarrowAmounts(keys, |keys|);
  }

  lemma {:induction false} CallerFits(b: Book, id: string, window: int, keys: seq<Key>, amount: Amount)
    requires keys == [Mine()]
    ensures JudgeAttempts(NARROW, b, id, window, keys, amount, |keys|) == Fits
  {
    NarrowKeys();
    JudgeAttemptsFits(NARROW, b, id, window, keys, amount, |keys|);
  }

  lemma {:induction false} AdmitWaits(g: Gov, h: Gov, id: string, adm: Admission, now: nat, keys: seq<Key>)
    requires Narrow(g) && id in {"a", "b"} && id !in g.book.reservations && keys == [Mine()]
    requires adm == CALLER && now == 0 && h == AdmitStep(g, id, adm, now, true, true).0
    ensures Narrow(h) && h.book.reservations == g.book.reservations[id := Waiting()]
  {
    CallerAdmissible(g, id, adm, now, keys, Amount(0, 0));
    Late.AdmitAccepted(g, id, adm, now, keys, Amount(0, 0));
    TakenWaits(g.book, h.book, id, adm, WindowOf(now), keys, Amount(0, 0));
  }

  lemma {:induction false} CallerAdmissible(g: Gov, id: string, adm: Admission, now: nat, keys: seq<Key>,
                                            amount: Amount)
    requires Narrow(g) && id in {"a", "b"} && id !in g.book.reservations && keys == [Mine()]
    requires adm == CALLER && amount == Amount(0, 0)
    ensures Late.Admissible(g, id, adm, now, keys, amount)
  {
    CallerSpelled(id, adm);
    CallerReserves(adm, keys);
    CallerFits(g.book, id, WindowOf(now), keys, amount);
  }

  lemma {:induction false} TakenWaits(b: Book, c: Book, id: string, adm: Admission, window: int, keys: seq<Key>,
                                      amount: Amount)
    requires adm == CALLER && window == 0 && keys == [Mine()] && amount == Amount(0, 0)
    requires c == OpenAttempt(b, id, NewReservation(adm, keys), FIRST_ATTEMPT, NewAttempt(window, amount, keys))
    ensures c.reservations == b.reservations[id := Waiting()]
  {}

  lemma {:induction false} WaitingCounts()
    ensures OwnIn(Waiting(), 60) == 0 && ActiveOf(Target())(Waiting()) == 0
    ensures ActiveOf(Target())(Moved()) == 1 && HasOpen(Waiting()) && Holds(Moved(), Target())
  {
    var r, m := Waiting(), Moved();
    SumZero(r.attempts, OpenIn(60));
    SumZero(r.attempts, HoldsKey(Target()));
    assert m.attempts.Keys == {FIRST_ATTEMPT};
    SumRemove(m.attempts, HoldsKey(Target()), FIRST_ATTEMPT);
    assert m.attempts - {FIRST_ATTEMPT} == map[];
    assert Open(r.attempts[FIRST_ATTEMPT]);
    ReboundHolds(r, "u", [Mine(), Target()], BindingAmounts(r, Amount(0, 0)), Target());
  }

  lemma {:induction false} LateFits(b: Book, id: string, keys: seq<Key>)
    requires id in b.reservations && b.reservations[id] == Waiting() && keys == [Mine(), Target()]
    requires Active(b.reservations - {id}, Target()) <= 1
    ensures JudgeBindings(NARROW, b, id, 60, keys, Amount(0, 0), |keys|) == Fits
  {
    JudgeBindingsFits(NARROW, b, id, 60, keys, Amount(0, 0), |keys|);
    forall i | 0 <= i < |keys| ensures JudgeBinding(NARROW, b, id, 60, keys[i], Amount(0, 0)) == Fits {
      LateKeyFits(b, id, 60, keys[i], Amount(0, 0));
    }
  }

  lemma {:induction false} LateKeyFits(b: Book, id: string, window: int, k: Key, amount: Amount)
    requires id in b.reservations && b.reservations[id] == Waiting() && (k == Mine() || k == Target()) && window == 60
    requires Active(b.reservations - {id}, Target()) <= 1
    ensures JudgeBinding(NARROW, b, id, window, k, amount) == Fits
  {
    NarrowKeys();
    WaitingCounts();
  }

  lemma {:induction false} BindMoves(g: Gov, h: Gov, id: string, keys: seq<Key>, upstream: string, now: nat)
    requires Narrow(g) && id in g.book.reservations && g.book.reservations[id] == Waiting()
    requires keys == [Mine(), Target()]
    requires Active(g.book.reservations - {id}, Target()) <= 1 && upstream == "u" && now == 60
    requires h == BindStep(g, id, upstream, now, true).0
    ensures Narrow(h) && h.book.reservations == g.book.reservations[id := Moved()]
  {
    Spelling();
    NarrowKeys();
    NarrowAmounts(keys, |keys|);
    LateFits(g.book, id, keys);
    assert AdmissionOf(Waiting()).(upstream := "u") == CALLER.(upstream := "u");
    Late.BindAccepted(g, id, Waiting(), "u", keys, Amount(0, 0));
  }

  lemma {:induction false} OneActive(rs: map<string, Reservation>, id: string, r: Reservation)
    requires rs == map[id := r]
    ensures Active(rs, Target()) == ActiveOf(Target())(r) && Holders(rs, Target()) == HolderOf(Target())(r)
  {
    assert rs - {id} == map[];
    SumRemove(rs, ActiveOf(Target()), id);
    SumRemove(rs, HolderOf(Target()), id);
  }

  /** What the run has come to: the reservations of the two requests. */
  predicate Stands(g: Gov, a: string, b: string, first: Reservation, second: Reservation) {
    Narrow(g) && g.book.reservations == map[a := first, b := second]
  }

  lemma {:induction false} BothWait(g0: Gov, g1: Gov, g2: Gov, a: string, b: string, adm: Admission, now: nat,
                                    keys: seq<Key>)
    requires Narrow(g0) && g0.book.reservations == map[] && a == "a" && b == "b" && keys == [Mine()]
    requires adm == CALLER && now == 0
    requires g1 == AdmitStep(g0, a, adm, now, true, true).0 && g2 == AdmitStep(g1, b, adm, now, true, true).0
    ensures Stands(g2, a, b, Waiting(), Waiting())
  {
    AdmitWaits(g0, g1, a, adm, now, keys);
    AdmitWaits(g1, g2, b, adm, now, keys);
  }

  /** The other request is all there is beside the one that is bound. */
  lemma {:induction false} RestActive(rs: map<string, Reservation>, a: string, b: string, r: Reservation,
                                      x: Reservation)
    requires rs == map[a := x, b := r] && a != b
    ensures Active(rs - {a}, Target()) == ActiveOf(Target())(r)
  {
    OneActive(rs - {a}, b, r);
  }

  lemma {:induction false} FirstHasRoom(rs: map<string, Reservation>, a: string, b: string)
    requires rs == map[a := Waiting(), b := Waiting()] && a != b
    ensures Active(rs - {a}, Target()) <= 1
  {
    WaitingCounts();
    RestActive(rs, a, b, Waiting(), Waiting());
  }

  lemma {:induction false} SecondHasRoom(rs: map<string, Reservation>, a: string, b: string)
    requires rs == map[a := Moved(), b := Waiting()] && a != b
    ensures Active(rs - {b}, Target()) <= 1
  {
    WaitingCounts();
    assert rs == map[b := Waiting(), a := Moved()];
    RestActive(rs, b, a, Moved(), Waiting());
  }

  lemma {:induction false} FirstMoves(g: Gov, h: Gov, a: string, b: string, keys: seq<Key>, upstream: string, now: nat)
    requires Stands(g, a, b, Waiting(), Waiting()) && a != b && keys == [Mine(), Target()]
    requires upstream == "u" && now == 60
    requires h == BindStep(g, a, upstream, now, true).0
    ensures Stands(h, a, b, Moved(), Waiting())
  {
    FirstHasRoom(g.book.reservations, a, b);
    BindMoves(g, h, a, keys, upstream, now);
    Replaced(g.book.reservations, h.book.reservations, a, b, Waiting(), Moved(), Waiting());
  }

  lemma {:induction false} SecondMoves(g: Gov, h: Gov, a: string, b: string, keys: seq<Key>, upstream: string, now: nat)
    requires Stands(g, a, b, Moved(), Waiting()) && a != b && keys == [Mine(), Target()]
    requires upstream == "u" && now == 60
    requires h == BindStep(g, b, upstream, now, true).0
    ensures Stands(h, a, b, Moved(), Moved())
  {
    SecondHasRoom(g.book.reservations, a, b);
    BindMoves(g, h, b, keys, upstream, now);
  }

  lemma {:induction false} Replaced(rs: map<string, Reservation>, after: map<string, Reservation>, a: string, b: string,
                                    x: Reservation, y: Reservation, r: Reservation)
    requires rs == map[a := x, b := r] && a != b && after == rs[a := y]
    ensures after == map[a := y, b := r]
  {}

  lemma {:induction false} TwoHold(rs: map<string, Reservation>, a: string, b: string)
    requires rs == map[a := Moved(), b := Moved()] && a != b
    ensures Holders(rs, Target()) == 2
  {
    WaitingCounts();
    SumRemove(rs, HolderOf(Target()), a);
    OneActive(rs - {a}, b, Moved());
  }

  lemma {:induction false} FourSteps(gs: seq<Gov>, a: string, b: string)
    requires IsSteadyRun(NARROW, gs, RUN) && a == "a" && b == "b"
    ensures gs[0] == Initial(NARROW)
    ensures gs[1] == AdmitStep(gs[0], a, CALLER, 0, true, true).0
    ensures gs[2] == AdmitStep(gs[1], b, CALLER, 0, true, true).0
    ensures gs[3] == BindStep(gs[2], a, "u", 60, true).0 && gs[4] == BindStep(gs[3], b, "u", 60, true).0
  {
    assert gs[1] == Step(gs[0], RUN[0]) && gs[2] == Step(gs[1], RUN[1]);
    assert gs[3] == Step(gs[2], RUN[2]) && gs[4] == Step(gs[3], RUN[3]);
  }

  /** Two requests admitted in one minute and bound in the next both hold an upstream that is
      limited to one at a time, although every step was judged. */
  lemma {:induction false} LateBindingCrowdsUpstream(gs: seq<Gov>)
    requires IsSteadyRun(NARROW, gs, RUN)
    ensures LimitsFor(NARROW, Target()).maxConcurrent == 1 && Holders(gs[4].book.reservations, Target()) == 2
  {
    FourSteps(gs, "a", "b");
    Crowded(gs[0], gs[1], gs[2], gs[3], gs[4], "a", "b", CALLER, 0, "u", 60);
  }

  lemma {:induction false} Crowded(g0: Gov, g1: Gov, g2: Gov, g3: Gov, g4: Gov, a: string, b: string, adm: Admission,
                                   early: nat, upstream: string, late: nat)
    requires g0 == Initial(NARROW) && a == "a" && b == "b"
    requires adm == CALLER && early == 0 && upstream == "u" && late == 60
    requires g1 == AdmitStep(g0, a, adm, early, true, true).0 && g2 == AdmitStep(g1, b, adm, early, true, true).0
    requires g3 == BindStep(g2, a, upstream, late, true).0 && g4 == BindStep(g3, b, upstream, late, true).0
    ensures LimitsFor(NARROW, Target()).maxConcurrent == 1 && Holders(g4.book.reservations, Target()) == 2
  {
    NarrowKeys();
    BothWait(g0, g1, g2, a, b, adm, early, [Mine()]);
    FirstMoves(g2, g3, a, b, [Mine(), Target()], upstream, late);
    SecondMoves(g3, g4, a, b, [Mine(), Target()], upstream, late);
    TwoHold(g4.book.reservations, a, b);
  }
}
