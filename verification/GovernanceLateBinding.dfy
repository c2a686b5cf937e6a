/** Why the bounds ask that bindings be made in the window of the attempts they move: the
    manager judges a binding on the window of the moment but charges the attempts' own. */
module GovernanceLateBinding {
  import opened MapSums
  import opened GovernanceBook
  import opened GovernancePolicy
  import opened Governance
  import opened GovernanceBounds
  import Glob

  const CONFIG := Config(true, false, 0, 0, 0, 0, 10, 0, 0, 0, 0, 0, false, map[],
                         [Budget(Upstream, "u", 0, 0, 10, 0)])

  const CALLER := Admission("p", "", "m", "")

  const OPS: seq<Op> := [Admit("a", CALLER, 0, true, true), Admit("b", CALLER, 0, true, true),
                         Bind("a", "u", 60, true), Bind("b", "u", 60, true)]

  const OWN := Key(Principal, "p")
  const TARGET := Key(Upstream, "u")

  function Waiting(): Reservation {
    NewReservation(CALLER, [OWN]).(attempts := map[FIRST_ATTEMPT := NewAttempt(0, Amount(0, 0), [OWN])])
  }

  lemma {:induction false} Trims()
    ensures Glob.Trim("u") == "u" && Glob.Trim("a") == "a" && Glob.Trim("b") == "b"
    ensures Glob.Trim("p") == "p" && Glob.Trim("m") == "m" && Glob.Trim("") == ""
  {}

  lemma {:induction false} Keys()
    ensures BudgetKeys(CONFIG, CALLER) == [OWN]
    ensures BudgetKeys(CONFIG, CALLER.(upstream := "u")) == [OWN, TARGET]
    ensures LimitsFor(CONFIG, OWN) == Limits(false, 0, 0, 0, 0)
    ensures LimitsFor(CONFIG, TARGET) == Limits(false, 0, 0, 10, 0)
  {
    Trims();
    assert KeysUpTo(CONFIG, CALLER, 0) == [OWN];
    assert KeysUpTo(CONFIG, CALLER.(upstream := "u"), 0) == [OWN];
    assert LimitsUpTo(CONFIG, OWN, 0) == Limits(false, 0, 0, 0, 0);
    assert LimitsUpTo(CONFIG, TARGET, 0) == Limits(false, 0, 0, 0, 0);
  }

  lemma {:induction false} Reserves()
    ensures Amounts(CONFIG, map[], "m", [OWN]) == Amount(0, 0)
    ensures Amounts(CONFIG, map[], "m", [OWN, TARGET]) == Amount(10, 0)
  {
    Keys();
    assert TokenLimitOver(CONFIG, [OWN], 0) == 0 && CostLimitOver(CONFIG, [OWN], 0) == 0;
    var keys := [OWN, TARGET];
    assert TokenLimitOver(CONFIG, keys, 0) == 0 && CostLimitOver(CONFIG, keys, 0) == 0;
    assert TokenLimitOver(CONFIG, keys, 1) == 0 && CostLimitOver(CONFIG, keys, 1) == 0;
  }

  /** States of the run, as far as the bound is concerned. */
  predicate Ready(g: Gov) { g.config == CONFIG && g.journalUp && g.estimates == map[] }

  lemma {:induction false} AdmitJudged(b: Book, id: string)
    ensures JudgeAttempts(CONFIG, b, id, 0, [OWN], Amount(0, 0), 1) == Fits
  {
    Keys();
    JudgeAttemptsFits(CONFIG, b, id, 0, [OWN], Amount(0, 0), 1);
  }

  lemma {:induction false} NoTenants()
    ensures !TenantRequired(CONFIG) && Normalize(CALLER) == CALLER
  {
    Trims();
  }

  /** Nothing stands in the way of an admission, which will reserve the amount on the keys. */
  ghost predicate Admissible(g: Gov, id: string, adm: Admission, now: nat, keys: seq<Key>, amount: Amount) {
    && ValidId(id) && Glob.Trim(id) == id && Normalize(adm) == adm
    && g.journalUp && id !in g.book.reservations && !TenantRequired(g.config)
    && keys == BudgetKeys(g.config, adm) && amount == Amounts(g.config, g.estimates, adm.model, keys)
    && JudgeAttempts(g.config, g.book, id, WindowOf(now), keys, amount, |keys|) == Fits
  }

  lemma {:induction false} AdmitAccepted(g: Gov, id: string, adm: Admission, now: nat, keys: seq<Key>, amount: Amount)
    requires Admissible(g, id, adm, now, keys, amount)
    ensures var h := AdmitStep(g, id, adm, now, true, true).0;
      && h.config == g.config && h.journalUp && h.estimates == g.estimates
      && h.book == OpenAttempt(g.book, id, NewReservation(adm, keys), FIRST_ATTEMPT,
                               NewAttempt(WindowOf(now), amount, keys))
  {}

  lemma {:induction false} AdmitWaits(g: Gov, id: string)
    requires Ready(g) && id in {"a", "b"} && id !in g.book.reservations
    ensures var h := AdmitStep(g, id, CALLER, 0, true, true).0;
      && Ready(h) && h.book.reservations == g.book.reservations[id := Waiting()]
      && At(h.book.usage, Slot(TARGET, 0)) == At(g.book.usage, Slot(TARGET, 0))
      && At(h.book.usage, Slot(TARGET, 60)) == At(g.book.usage, Slot(TARGET, 60))
  {
    Trims();
    Keys();
    Reserves();
    NoTenants();
    AdmitJudged(g.book, id);
    AdmitAccepted(g, id, CALLER, 0, [OWN], Amount(0, 0));
    ChargeAt(g.book.usage, NewAttempt(0, Amount(0, 0), [OWN]), Slot(TARGET, 0));
    ChargeAt(g.book.usage, NewAttempt(0, Amount(0, 0), [OWN]), Slot(TARGET, 60));
  }

  lemma {:induction false} NoneOfThisMinute()
    ensures OwnIn(Waiting(), 60) == 0 && OwnIn(Waiting(), 0) == 1
    ensures forall m :: Load(Waiting(), Slot(TARGET, 60), m) == 0 && Load(Waiting(), Slot(TARGET, 0), m) == 0
  {
    var r := Waiting();
    SumZero(r.attempts, OpenIn(60));
    SumRemove(r.attempts, OpenIn(0), FIRST_ATTEMPT);
    assert r.attempts - {FIRST_ATTEMPT} == map[];
    forall m: Measure, w: int ensures Load(r, Slot(TARGET, w), m) == 0 {
      SumZero(r.attempts, AttemptLoad(Slot(TARGET, w), m));
    }
  }

  lemma {:induction false} LateLoad(s: Slot)
    requires s.key == TARGET && s.window in {0, 60}
    ensures var after := ReboundReservation(Waiting(), "u", [OWN, TARGET], BindingAmounts(Waiting(), Amount(10, 0)));
      forall m :: Load(after, s, m) - Load(Waiting(), s, m) ==
        if s.window == 60 then 0 else Share(NewAttempt(0, Amount(10, 0), [OWN, TARGET]), m)
  {
    NoneOfThisMinute();
    forall m: Measure ensures Load(ReboundReservation(Waiting(), "u", [OWN, TARGET],
                                                      BindingAmounts(Waiting(), Amount(10, 0))), s, m)
      == if s.window == 0 then Share(NewAttempt(0, Amount(10, 0), [OWN, TARGET]), m) else 0
    {
      ReboundLoad(Waiting(), "u", [OWN, TARGET], Amount(10, 0), 0, s, m);
    }
  }

  lemma {:induction false} BoundLate(b: Book, id: string, s: Slot)
    requires id in b.reservations && b.reservations[id] == Waiting() && s.key == TARGET && s.window in {0, 60}
    ensures var c := Rebind(b, id, "u", [OWN, TARGET], BindingAmounts(Waiting(), Amount(10, 0)));
      At(c.usage, s) == if s.window == 60 then At(b.usage, s) else Plus(At(b.usage, s), 1, 10, 0)
  {
    var after := ReboundReservation(Waiting(), "u", [OWN, TARGET], BindingAmounts(Waiting(), Amount(10, 0)));
    LateLoad(s);
    LateRow(b.usage, Waiting(), after, NewAttempt(0, Amount(10, 0), [OWN, TARGET]), s);
  }

  lemma {:induction false} LateRow(usage: map<Slot, Usage>, before: Reservation, after: Reservation, a: Attempt,
                                   s: Slot)
    requires forall m :: Load(after, s, m) - Load(before, s, m) == if s.window == 60 then 0 else Share(a, m)
    ensures At(Recharge(usage, before, after), s)
         == if s.window == 60 then At(usage, s) else Plus(At(usage, s), 1, a.tokens, a.cost)
  {
    RechargeAt(usage, before, after, s);
    forall m: Measure ensures Load(after, s, m) - Load(before, s, m) == if s.window == 60 then 0 else Share(a, m) {}
  }

  lemma {:induction false} BindJudged(b: Book, id: string)
    requires id in b.reservations && b.reservations[id] == Waiting() && At(b.usage, Slot(TARGET, 60)) == UNUSED
    ensures JudgeBindings(CONFIG, b, id, 60, [OWN, TARGET], Amount(10, 0), 2) == Fits
  {
    Keys();
    NoneOfThisMinute();
    JudgeBindingsFits(CONFIG, b, id, 60, [OWN, TARGET], Amount(10, 0), 2);
    assert JudgeBinding(CONFIG, b, id, 60, TARGET, Amount(10, 0)) == Fits;
  }

  lemma {:induction false} BindAccepted(g: Gov, id: string, r: Reservation, upstream: string, keys: seq<Key>,
                                        amount: Amount)
    requires ValidId(upstream) && Glob.Trim(upstream) == upstream && g.journalUp
    requires id in g.book.reservations && g.book.reservations[id] == r && r.upstream != upstream
    requires keys == BudgetKeys(g.config, AdmissionOf(r).(upstream := upstream))
    requires amount == Amounts(g.config, g.estimates, r.model, keys)
    requires JudgeBindings(g.config, g.book, id, 60, keys, amount, |keys|) == Fits
    ensures var h := BindStep(g, id, upstream, 60, true).0;
      && h.config == g.config && h.journalUp && h.estimates == g.estimates
      && h.book == Rebind(g.book, id, upstream, keys, BindingAmounts(r, amount))
  {}

  /** Whatever is on the attempts' own window, the binding is accepted and adds to it. */
  lemma {:induction false} BindSlipsThrough(g: Gov, h: Gov, id: string)
    requires Ready(g) && id in g.book.reservations && g.book.reservations[id] == Waiting()
    requires At(g.book.usage, Slot(TARGET, 60)) == UNUSED && h == BindStep(g, id, "u", 60, true).0
    ensures
      && Ready(h) && h.book.reservations.Keys == g.book.reservations.Keys
      && (forall other :: other in g.book.reservations && other != id ==>
            h.book.reservations[other] == g.book.reservations[other])
      && At(h.book.usage, Slot(TARGET, 60)) == UNUSED
      && At(h.book.usage, Slot(TARGET, 0)) == Plus(At(g.book.usage, Slot(TARGET, 0)), 1, 10, 0)
  {
    BindTaken(g, h, id);
    BoundRows(g.book, h.book, id);
  }

  lemma {:induction false} BoundRows(b: Book, c: Book, id: string)
    requires id in b.reservations && b.reservations[id] == Waiting() && At(b.usage, Slot(TARGET, 60)) == UNUSED
    requires c == Rebind(b, id, "u", [OWN, TARGET], BindingAmounts(Waiting(), Amount(10, 0)))
    ensures c.reservations.Keys == b.reservations.Keys
    ensures forall other :: other in b.reservations && other != id ==> c.reservations[other] == b.reservations[other]
    ensures At(c.usage, Slot(TARGET, 60)) == UNUSED
    ensures At(c.usage, Slot(TARGET, 0)) == Plus(At(b.usage, Slot(TARGET, 0)), 1, 10, 0)
  {
    BoundLate(b, id, Slot(TARGET, 0));
    BoundLate(b, id, Slot(TARGET, 60));
  }

  lemma {:induction false} BindTaken(g: Gov, h: Gov, id: string)
    requires Ready(g) && id in g.book.reservations && g.book.reservations[id] == Waiting()
    requires At(g.book.usage, Slot(TARGET, 60)) == UNUSED && h == BindStep(g, id, "u", 60, true).0
    ensures Ready(h) && h.book == Rebind(g.book, id, "u", [OWN, TARGET], BindingAmounts(Waiting(), Amount(10, 0)))
  {
    Trims();
    Keys();
    Reserves();
    BindJudged(g.book, id);
    assert AdmissionOf(Waiting()).(upstream := "u") == CALLER.(upstream := "u");
    BindAccepted(g, id, Waiting(), "u", [OWN, TARGET], Amount(10, 0));
  }

  /** How far the run has got: both admitted, and n of them bound. */
  predicate Progress(g: Gov, bound: nat) {
    && Ready(g) && At(g.book.usage, Slot(TARGET, 60)) == UNUSED
    && At(g.book.usage, Slot(TARGET, 0)) == Usage(bound, 0, 0, 10 * bound, 0, 0)
    && (bound == 0 ==> "a" in g.book.reservations && g.book.reservations["a"] == Waiting())
    && (bound <= 1 ==> "b" in g.book.reservations && g.book.reservations["b"] == Waiting())
  }

  predicate FirstIn(g: Gov) {
    && Ready(g) && g.book.reservations == map["a" := Waiting()]
    && At(g.book.usage, Slot(TARGET, 0)) == UNUSED && At(g.book.usage, Slot(TARGET, 60)) == UNUSED
  }

  lemma {:induction false} FirstAdmitted(g0: Gov, g1: Gov)
    requires g0 == Initial(CONFIG) && g1 == AdmitStep(g0, "a", CALLER, 0, true, true).0
    ensures FirstIn(g1)
  {
    AdmitWaits(g0, "a");
  }

  lemma {:induction false} SecondAdmitted(g1: Gov, g2: Gov)
    requires FirstIn(g1) && g2 == AdmitStep(g1, "b", CALLER, 0, true, true).0
    ensures Progress(g2, 0)
  {
    AdmitWaits(g1, "b");
  }

  lemma {:induction false} FirstBound(g2: Gov, g3: Gov)
    requires Progress(g2, 0) && g3 == BindStep(g2, "a", "u", 60, true).0
    ensures Progress(g3, 1)
  {
    BindSlipsThrough(g2, g3, "a");
  }

  lemma {:induction false} SecondBound(g3: Gov, g4: Gov)
    requires Progress(g3, 1) && g4 == BindStep(g3, "b", "u", 60, true).0
    ensures Progress(g4, 2)
  {
    BindSlipsThrough(g3, g4, "b");
  }

  /** Two requests admitted in one minute and bound in the next put twenty tokens on a window
      whose limit is ten, although nothing was settled and every step was judged. */
  lemma {:induction false} LateBindingExceedsBudget(gs: seq<Gov>)
    requires IsSteadyRun(CONFIG, gs, OPS)
    ensures TotalOvershoot(gs, OPS, 4, Slot(TARGET, 0), Tokens) == 0
    ensures At(gs[4].book.usage, Slot(TARGET, 0)).reservedTokens == 20
    ensures LimitsFor(CONFIG, TARGET).tokenLimit == 10
  {
    Keys();
    NoSettlement(gs, 4);
    assert gs[1] == Step(gs[0], OPS[0]) && gs[2] == Step(gs[1], OPS[1]);
    assert gs[3] == Step(gs[2], OPS[2]) && gs[4] == Step(gs[3], OPS[3]);
    FirstAdmitted(gs[0], gs[1]);
    SecondAdmitted(gs[1], gs[2]);
    FirstBound(gs[2], gs[3]);
    SecondBound(gs[3], gs[4]);
  }

  lemma {:induction false} NoSettlement(gs: seq<Gov>, n: nat)
    requires n <= |OPS| < |gs|
    requires forall i :: 0 <= i < |OPS| ==> Possible(gs[i], OPS[i])
    ensures TotalOvershoot(gs, OPS, n, Slot(TARGET, 0), Tokens) == 0
  {
    if n > 0 { NoSettlement(gs, n - 1); }
  }

  // ---------------------------------------------------------------- exactly when a binding keeps the bound

  /** What the moved attempts hold on any slot: those of its window, each the new amount. */
  lemma {:induction false} ReboundLoadAnywhere(r: Reservation, upstream: string, keys: seq<Key>, amount: Amount,
                                               s: Slot, m: Measure)
    ensures Load(ReboundReservation(r, upstream, keys, BindingAmounts(r, amount)), s, m)
         == if s.key in keys then OwnIn(r, s.window) * Share(NewAttempt(s.window, amount, keys), m) else 0
  {
    var after := ReboundReservation(r, upstream, keys, BindingAmounts(r, amount));
    if s.key in keys {
      var c := Share(NewAttempt(s.window, amount, keys), m);
      SumSame(after.attempts, AttemptLoad(s, m), r.attempts, Scaled(OpenIn(s.window), c));
      SumScaled(r.attempts, OpenIn(s.window), c);
    } else {
      SumZero(after.attempts, AttemptLoad(s, m));
    }
  }

  /** What a slot will show after a binding, in terms of what is known before it: the share of
      the reservation goes, and its attempts of that window come back with the new amount. */
  ghost function BoundTo(b: Book, r: Reservation, keys: seq<Key>, amount: Amount, s: Slot, m: Measure): int {
    Committed(At(b.usage, s), m) - Load(r, s, m)
      + if s.key in keys then OwnIn(r, s.window) * Share(NewAttempt(s.window, amount, keys), m) else 0
  }

  /** A binding keeps a limit, on a key it gains, keeps or loses and in whatever window, exactly
      when that sum does. */
  lemma {:induction false} BindingKeepsLimitIff(b: Book, id: string, upstream: string, keys: seq<Key>, amount: Amount,
                                                s: Slot, m: Measure, limit: nat)
    requires id in b.reservations
    ensures Committed(At(Rebind(b, id, upstream, keys, BindingAmounts(b.reservations[id], amount)).usage, s), m)
         <= limit
       <==> BoundTo(b, b.reservations[id], keys, amount, s, m) <= limit
  {
    var r := b.reservations[id];
    var after := ReboundReservation(r, upstream, keys, BindingAmounts(r, amount));
    RechargeAt(b.usage, r, after, s);
    ReboundLoadAnywhere(r, upstream, keys, amount, s, m);
  }

  /** The operation leaves room on the slot: asked of a binding before it is made. */
  ghost predicate LeavesRoom(g: Gov, op: Op, s: Slot, m: Measure, x: nat) {
    Moves(g, op) && LimitOf(LimitsFor(g.config, s.key), m) > 0 ==>
      BoundTo(g.book, g.book.reservations[op.id], BindingKeys(g, op.id, op.upstream),
              BindingAmount(g, op.id, op.upstream), s, m) <= LimitOf(LimitsFor(g.config, s.key), m) + x
  }

  lemma {:induction false} BindWithinIff(g: Gov, h: Gov, op: Op, s: Slot, m: Measure, x: nat)
    requires op.Bind? && h == BindStep(g, op.id, op.upstream, op.now, op.ok).0 && Within(g, s, m, x)
    ensures Within(h, s, m, x) <==> LeavesRoom(g, op, s, m, x)
  {
    if Moves(g, op) {
      MovingBinding(g, op);
      BindingKeepsLimitIff(g.book, op.id, Glob.Trim(op.upstream), BindingKeys(g, op.id, op.upstream),
                           BindingAmount(g, op.id, op.upstream), s, m,
                           LimitOf(LimitsFor(g.config, s.key), m) + x);
    } else {
      StillBinding(g, op);
    }
  }

  lemma {:induction false} StepWithinIff(g: Gov, h: Gov, op: Op, s: Slot, m: Measure, x: nat)
    requires Steady(g, g.config) && Possible(g, op) && !op.Apply? && Within(g, s, m, x) && h == Step(g, op)
    ensures Within(h, s, m, x + Overshoot(g, op, s, m)) <==> LeavesRoom(g, op, s, m, x)
  {
    if op.Bind? {
      assert Overshoot(g, op, s, m) == 0;
      BindWithinIff(g, h, op, s, m, x);
    } else {
      StepWithin(g, op, s, m, x);
    }
  }

  /** The bound held in each of the states up to n. */
  ghost predicate HeldUpTo(gs: seq<Gov>, ops: seq<Op>, n: nat, s: Slot, m: Measure)
    requires n <= |ops| < |gs| && forall i :: 0 <= i < |ops| ==> Possible(gs[i], ops[i])
  {
    Within(gs[n], s, m, TotalOvershoot(gs, ops, n, s, m)) && (n == 0 || HeldUpTo(gs, ops, n - 1, s, m))
  }

  /** Each of the first n operations left room. */
  ghost predicate RoomUpTo(gs: seq<Gov>, ops: seq<Op>, n: nat, s: Slot, m: Measure)
    requires n <= |ops| < |gs| && forall i :: 0 <= i < |ops| ==> Possible(gs[i], ops[i])
  {
    n == 0 || (RoomUpTo(gs, ops, n - 1, s, m) && LeavesRoom(gs[n - 1], ops[n - 1], s, m,
                                                            TotalOvershoot(gs, ops, n - 1, s, m)))
  }

  /** The budget bound, exactly: over a whole run in enforce mode it holds throughout if and only
      if every binding left room on the slot when it was made, late or not. */
  lemma {:induction false} BudgetHeldIff(cfg: Config, gs: seq<Gov>, ops: seq<Op>, n: nat, s: Slot, m: Measure)
    requires IsSteadyRun(cfg, gs, ops) && n <= |ops|
    ensures HeldUpTo(gs, ops, n, s, m) <==> RoomUpTo(gs, ops, n, s, m)
  {
    if n == 0 {
      EmptyWithin(gs[0], s, m);
    } else {
      BudgetHeldIff(cfg, gs, ops, n - 1, s, m);
      StepHeldIff(cfg, gs, ops, n, s, m);
    }
  }

  lemma {:induction false} StepHeldIff(cfg: Config, gs: seq<Gov>, ops: seq<Op>, n: nat, s: Slot, m: Measure)
    requires IsSteadyRun(cfg, gs, ops) && 0 < n <= |ops|
    requires HeldUpTo(gs, ops, n - 1, s, m) <==> RoomUpTo(gs, ops, n - 1, s, m)
    ensures HeldUpTo(gs, ops, n, s, m) <==> RoomUpTo(gs, ops, n, s, m)
  {
    RunSteady(cfg, gs, ops, n - 1);
    var x := TotalOvershoot(gs, ops, n - 1, s, m);
    if Within(gs[n - 1], s, m, x) { StepWithinIff(gs[n - 1], gs[n], ops[n - 1], s, m, x); }
  }

  lemma {:induction false} EmptyWithin(g: Gov, s: Slot, m: Measure)
    requires g.book.usage == map[]
    ensures Within(g, s, m, 0)
  {}
}
