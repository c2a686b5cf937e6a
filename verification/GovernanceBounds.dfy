/** Budgets, rates and concurrency over whole runs in enforce mode with a fixed
    configuration, restarts included. */
module GovernanceBounds {
  import opened MapSums
  import opened GovernanceBook
  import opened GovernancePolicy
  import Options
  import opened Governance
  import opened GovernanceConservation
  import opened GovernanceReplay

  // ---------------------------------------------------------------- what is bounded

  /** Used plus reserved on one key and window; for Requests, the attempts charged. */
  function Committed(u: Usage, m: Measure): int {
    match m
    case Requests => u.requests
    case Tokens => u.tokens + u.reservedTokens
    case Cost => u.cost + u.reservedCost
  }

  function LimitOf(l: Limits, m: Measure): nat {
    match m
    case Requests => l.requestsPerMinute
    case Tokens => l.tokenLimit
    case Cost => l.costLimit
  }

  function Spent(cfg: Config, model: string, usage: Reported, m: Measure): nat
    requires ReportedInRange(usage)
  {
    match m
    case Requests => 0
    case Tokens => UsageTotal(usage)
    case Cost => UsageCost(cfg, model, usage)
  }

  /** How far one operation let an attempt exceed its own reservation on a slot. */
  ghost function Overshoot(g: Gov, op: Op, s: Slot, m: Measure): nat
    requires Possible(g, op)
  {
    OvershootIn(g, Step(g, op), op, s, m)
  }

  /** The same, given the state the operation leads to. */
  ghost function OvershootIn(g: Gov, next: Gov, op: Op, s: Slot, m: Measure): nat
    requires Possible(g, op)
  {
    if !op.Record? then 0 else
      var i, after := Glob.Trim(op.settlement), next.book.reservations;
      if op.id in g.book.reservations && op.id in after && i in after[op.id].attempts
         && i in after[op.id].settlements && i !in g.book.reservations[op.id].settlements
         && On(after[op.id].attempts[i], s) && m != Requests
      then Max(0, Spent(g.config, after[op.id].model, op.usage, m) - Share(after[op.id].attempts[i], m))
      else 0
  }

  ghost function TotalOvershoot(gs: seq<Gov>, ops: seq<Op>, n: nat, s: Slot, m: Measure): nat
    requires n <= |ops| < |gs| && forall i :: 0 <= i < |ops| ==> Possible(gs[i], ops[i])
  {
    if n == 0 then 0 else TotalOvershoot(gs, ops, n - 1, s, m) + Overshoot(gs[n - 1], ops[n - 1], s, m)
  }

  /** A binding made in the window in which the reservation's open attempts were reserved. */
  ghost predicate BindsInWindow(g: Gov, op: Op) {
    op.Bind? && op.id in g.book.reservations ==>
      forall i :: i in g.book.reservations[op.id].attempts && Open(g.book.reservations[op.id].attempts[i]) ==>
        g.book.reservations[op.id].attempts[i].window == WindowOf(op.now)
  }

  // ---------------------------------------------------------------- one more attempt

  lemma {:induction false} JudgedRoom(cfg: Config, b: Book, id: string, window: int, keys: seq<Key>, amount: Amount,
                                      s: Slot, m: Measure)
    requires cfg.enforce && JudgeAttempts(cfg, b, id, window, keys, amount, |keys|) == Fits
    requires s.key in keys && s.window == window && LimitOf(LimitsFor(cfg, s.key), m) > 0
    ensures Committed(At(b.usage, s), m) + Share(NewAttempt(window, amount, keys), m) <= LimitOf(LimitsFor(cfg, s.key),
                                                                                                 m)
  {
    JudgeAttemptsFits(cfg, b, id, window, keys, amount, |keys|);
    var i :| 0 <= i < |keys| && keys[i] == s.key;
    assert JudgeAttempt(cfg, b, id, window, keys[i], amount) == Fits;
    assert Slot(keys[i], window) == s;
  }

  lemma {:induction false} ChargeBound(cfg: Config, b: Book, id: string, window: int, keys: seq<Key>, amount: Amount,
                                       s: Slot, m: Measure, x: nat)
    requires cfg.enforce && JudgeAttempts(cfg, b, id, window, keys, amount, |keys|) == Fits
    requires LimitOf(LimitsFor(cfg, s.key), m) > 0
    requires Committed(At(b.usage, s), m) <= LimitOf(LimitsFor(cfg, s.key), m) + x
    ensures Committed(At(Charge(b.usage, NewAttempt(window, amount, keys)), s), m)
         <= LimitOf(LimitsFor(cfg, s.key), m) + x
  {
    var a := NewAttempt(window, amount, keys);
    ChargeAt(b.usage, a, s);
    if On(a, s) { JudgedRoom(cfg, b, id, window, keys, amount, s, m); }
  }

  // ---------------------------------------------------------------- a binding

  /** What the moved attempts hold on a slot of the current window: each the new amount. */
  lemma {:induction false} ReboundLoad(r: Reservation, upstream: string, keys: seq<Key>, amount: Amount, window: int,
                                       s: Slot, m: Measure)
    requires forall i :: i in r.attempts && Open(r.attempts[i]) ==> r.attempts[i].window == window
    ensures Load(ReboundReservation(r, upstream, keys, BindingAmounts(r, amount)), s, m)
         == if s.key in keys && s.window == window
            then OwnIn(r, window) * Share(NewAttempt(window, amount, keys), m) else 0
  {
    var after := ReboundReservation(r, upstream, keys, BindingAmounts(r, amount));
    if s.key in keys && s.window == window {
      var c := Share(NewAttempt(window, amount, keys), m);
      SumSame(after.attempts, AttemptLoad(s, m), r.attempts, Scaled(OpenIn(window), c));
      SumScaled(r.attempts, OpenIn(window), c);
    } else {
      SumZero(after.attempts, AttemptLoad(s, m));
    }
  }

  lemma {:induction false} JudgedBindingRoom(cfg: Config, b: Book, id: string, keys: seq<Key>, amount: Amount,
                                             s: Slot, m: Measure)
    requires cfg.enforce && id in b.reservations
    requires JudgeBindings(cfg, b, id, s.window, keys, amount, |keys|) == Fits
    requires s.key in keys && LimitOf(LimitsFor(cfg, s.key), m) > 0
    ensures Committed(At(b.usage, s), m) + OwnIn(b.reservations[id], s.window) * Share(NewAttempt(s.window, amount,
                                                                                                  keys), m)
         <= LimitOf(LimitsFor(cfg, s.key), m)
  {
    JudgeBindingsFits(cfg, b, id, s.window, keys, amount, |keys|);
    var i :| 0 <= i < |keys| && keys[i] == s.key;
    assert JudgeBinding(cfg, b, id, s.window, keys[i], amount) == Fits;
    assert Slot(keys[i], s.window) == s;
  }

  /** An accepted binding is sound although a key that stays counts the reservation twice. */
  lemma {:induction false} RebindBound(cfg: Config, b: Book, id: string, upstream: string, window: int,
                                       keys: seq<Key>, amount: Amount, s: Slot, m: Measure, x: nat)
    requires cfg.enforce && Conserved(b) && id in b.reservations
    requires JudgeBindings(cfg, b, id, window, keys, amount, |keys|) == Fits
    requires forall i :: i in b.reservations[id].attempts && Open(b.reservations[id].attempts[i]) ==>
               b.reservations[id].attempts[i].window == window
    requires LimitOf(LimitsFor(cfg, s.key), m) > 0
    requires Committed(At(b.usage, s), m) <= LimitOf(LimitsFor(cfg, s.key), m) + x
    ensures Committed(At(Rebind(b, id, upstream, keys, BindingAmounts(b.reservations[id], amount)).usage, s), m)
         <= LimitOf(LimitsFor(cfg, s.key), m) + x
  {
    var r := b.reservations[id];
    var after := ReboundReservation(r, upstream, keys, BindingAmounts(r, amount));
    RechargedCommitment(b.usage, r, after, s, m);
    assert Load(r, s, m) >= 0 by { LoadNonNegative(r, s, m); }
    ReboundLoad(r, upstream, keys, amount, window, s, m);
    if s.key in keys && s.window == window { JudgedBindingRoom(cfg, b, id, keys, amount, s, m); }
  }

  lemma {:induction false} RechargedCommitment(usage: map<Slot, Usage>, r: Reservation, after: Reservation, s: Slot,
                                               m: Measure)
    ensures Committed(At(Recharge(usage, r, after), s), m)
         == Committed(At(usage, s), m) + Load(after, s, m) - Load(r, s, m)
  {
    RechargeAt(usage, r, after, s);
  }

  /** A key of another scope is neither gained nor lost by a binding. */
  lemma {:induction false} ReboundSameLoad(r: Reservation, upstream: string, keys: seq<Key>, amount: Amount, s: Slot)
    requires ReservationValid(r) && (s.key in r.keys <==> s.key in keys)
    ensures Load(ReboundReservation(r, upstream, keys, BindingAmounts(r, amount)), s, Requests) == Load(r, s, Requests)
  {
    var after := ReboundReservation(r, upstream, keys, BindingAmounts(r, amount));
    forall i | i in r.attempts
      ensures AttemptLoad(s, Requests)(after.attempts[i]) == AttemptLoad(s, Requests)(r.attempts[i])
    {
      assert AttemptValid(r.attempts[i], r);
    }
    SumSame(after.attempts, AttemptLoad(s, Requests), r.attempts, AttemptLoad(s, Requests));
  }

  // ---------------------------------------------------------------- a steady manager

  ghost predicate KeysCurrent(g: Gov) {
    forall id :: id in g.book.reservations ==>
      g.book.reservations[id].keys == BudgetKeys(g.config, AdmissionOf(g.book.reservations[id]))
  }

  /** What every state of a run in enforce mode with a fixed configuration satisfies. */
  ghost predicate Steady(g: Gov, cfg: Config) {
    g.config == cfg && cfg.enforce && Conserved(g.book) && Sound(g.ledger) && Refines(g) && KeysCurrent(g)
  }

  /** Closing some reservations leaves the others as they were. */
  lemma {:induction false} DropEachPart(b: Book, order: seq<string>)
    ensures forall id :: id in DropEach(b, order).reservations ==>
              id in b.reservations && DropEach(b, order).reservations[id] == b.reservations[id]
    decreases |order|
  {
    if order != [] { DropEachPart(b, order[..|order| - 1]); }
  }

  /** Closing reservations only gives back. */
  lemma {:induction false} DropEachLess(b: Book, order: seq<string>, s: Slot)
    requires Conserved(b)
    ensures At(DropEach(b, order).usage, s).reservedTokens <= At(b.usage, s).reservedTokens
    ensures At(DropEach(b, order).usage, s).reservedCost <= At(b.usage, s).reservedCost
    decreases |order|
  {
    if order != [] {
      var n := |order| - 1;
      DropEachLess(b, order[..n], s);
      DropEachConserves(b, order[..n]);
      DropLess(DropEach(b, order[..n]), order[n], s);
    }
  }

  lemma {:induction false} DropLess(b: Book, id: string, s: Slot)
    requires Conserved(b)
    ensures At(Drop(b, id).usage, s).reservedTokens <= At(b.usage, s).reservedTokens
    ensures At(Drop(b, id).usage, s).reservedCost <= At(b.usage, s).reservedCost
  {
    if id in b.reservations {
      NeverClipped(b, id, s);
      UnreserveAllAt(b.usage, b.reservations[id], s);
    }
  }

  lemma {:induction false} StepSteady(g: Gov, op: Op, cfg: Config)
    requires Steady(g, cfg) && Possible(g, op) && !op.Apply?
    ensures Steady(Step(g, op), cfg)
  {
    if op.Restart? {
      RestartKeys(g, Replay(g.ledger).value, op.order, op.now, op.good);
      RestartRefines(g, op.order, op.now, op.good);
    } else {
      StepKeys(g, op);
      StepConserves(g, op);
      StepFaithful(g, op);
    }
  }

  lemma {:induction false} SettleStepKeys(g: Gov, id: string, i: string, usage: Reported, now: nat, ok: bool)
    requires KeysCurrent(g) && ReportedInRange(usage) && id in g.book.reservations
    requires i in g.book.reservations[id].attempts
    ensures KeysCurrent(SettleStep(g, id, i, usage, now, ok).0)
    ensures SettleStep(g, id, i, usage, now, ok).0.config == g.config
  {
    assert AdmissionOf(SettleStep(g, id, i, usage, now, ok).0.book.reservations[id])
         == AdmissionOf(g.book.reservations[id]);
  }

  lemma {:induction false} OpenStepKeys(g: Gov, id: string, i: string, now: nat, ok: bool)
    requires KeysCurrent(g) && id in g.book.reservations
    ensures KeysCurrent(OpenStep(g, id, i, now, ok).0) && OpenStep(g, id, i, now, ok).0.config == g.config
  {
    assert AdmissionOf(OpenStep(g, id, i, now, ok).0.book.reservations[id]) == AdmissionOf(g.book.reservations[id]);
  }

  lemma {:induction false} AdmitKeys(g: Gov, rawId: string, raw: Admission, now: nat, healthy: bool, ok: bool)
    requires KeysCurrent(g)
    ensures KeysCurrent(AdmitStep(g, rawId, raw, now, healthy, ok).0)
    ensures AdmitStep(g, rawId, raw, now, healthy, ok).0.config == g.config
  {}

  lemma {:induction false} BindKeys(g: Gov, id: string, raw: string, now: nat, ok: bool)
    requires KeysCurrent(g)
    ensures KeysCurrent(BindStep(g, id, raw, now, ok).0) && BindStep(g, id, raw, now, ok).0.config == g.config
  {}

  lemma {:induction false} RecordKeys(g: Gov, id: string, raw: string, usage: Reported, now: nat, okOpen: bool,
                                      ok: bool)
    requires KeysCurrent(g) && ReportedInRange(usage)
    ensures KeysCurrent(RecordStep(g, id, raw, usage, now, okOpen, ok).0)
    ensures RecordStep(g, id, raw, usage, now, okOpen, ok).0.config == g.config
  {
    var i := Glob.Trim(raw);
    if id in g.book.reservations {
      if i in g.book.reservations[id].attempts {
        SettleStepKeys(g, id, i, usage, now, ok);
      } else {
        OpenStepKeys(g, id, i, now, okOpen);
        var (h, outcome) := OpenStep(g, id, i, now, okOpen);
        if outcome == Done { SettleStepKeys(h, id, i, usage, now, ok); }
      }
    }
  }

  lemma {:induction false} StepKeys(g: Gov, op: Op)
    requires KeysCurrent(g) && Possible(g, op) && !op.Apply? && !op.Restart?
    ensures KeysCurrent(Step(g, op)) && Step(g, op).config == g.config
  {
    match op
    case Admit(id, adm, now, healthy, ok) => AdmitKeys(g, id, adm, now, healthy, ok);
    case Bind(id, upstream, now, ok) => BindKeys(g, id, upstream, now, ok);
    case Begin(id, attempt, now, ok) =>
      if id in g.book.reservations { OpenStepKeys(g, id, Glob.Trim(attempt), now, ok); }
    case Record(id, settlement, usage, now, okOpen, ok) => RecordKeys(g, id, settlement, usage, now, okOpen, ok);
    case _ =>
  }

  lemma {:induction false} PartKeys(g: Gov, h: Gov, p: Book, order: seq<string>)
    requires KeysCurrent(g) && Agree(p, g.book) && h.config == g.config && h.book == DropEach(p, order)
    ensures KeysCurrent(h)
  {
    DropEachPart(p, order);
    forall id | id in h.book.reservations
      ensures h.book.reservations[id].keys == BudgetKeys(h.config, AdmissionOf(h.book.reservations[id]))
    {
      assert SameReservation(p.reservations[id], g.book.reservations[id]);
    }
  }

  lemma {:induction false} RestartKeys(g: Gov, p: Replica, order: seq<string>, now: nat, good: nat)
    requires KeysCurrent(g) && Replay(g.ledger) == Options.Some(p) && Agree(p.book, g.book)
    ensures KeysCurrent(RestartStep(g, order, now, good)) && RestartStep(g, order, now, good).config == g.config
  {
    var h := RestartStep(g, order, now, good);
    if good < |order| && g.config.enforce {
      PartKeys(g, h, p.book, Written(order, good));
    } else {
      PartKeys(g, h, p.book, order);
    }
  }

  // ---------------------------------------------------------------- bounds, operation by operation

  /** The bound on one slot, with the overshoot x granted so far. */
  ghost predicate Within(g: Gov, s: Slot, m: Measure, x: nat) {
    LimitOf(LimitsFor(g.config, s.key), m) > 0 ==>
      Committed(At(g.book.usage, s), m) <= LimitOf(LimitsFor(g.config, s.key), m) + x
  }

  lemma {:induction false} AdmitWithin(g: Gov, rawId: string, raw: Admission, now: nat, healthy: bool, ok: bool,
                                       s: Slot, m: Measure, x: nat)
    requires g.config.enforce && Within(g, s, m, x)
    ensures Within(AdmitStep(g, rawId, raw, now, healthy, ok).0, s, m, x)
  {
    var id, adm := Glob.Trim(rawId), Normalize(raw);
    var keys := BudgetKeys(g.config, adm);
    var amount := Amounts(g.config, g.estimates, adm.model, keys);
    if LimitOf(LimitsFor(g.config, s.key), m) > 0
       && JudgeAttempts(g.config, g.book, id, WindowOf(now), keys, amount, |keys|) == Fits {
      ChargeBound(g.config, g.book, id, WindowOf(now), keys, amount, s, m, x);
    }
  }

  lemma {:induction false} OpenStepWithin(g: Gov, id: string, i: string, now: nat, ok: bool, s: Slot, m: Measure,
                                          x: nat)
    requires g.config.enforce && Within(g, s, m, x) && id in g.book.reservations
    ensures Within(OpenStep(g, id, i, now, ok).0, s, m, x)
  {
    var r := g.book.reservations[id];
    var amount := Amounts(g.config, g.estimates, r.model, r.keys);
    if LimitOf(LimitsFor(g.config, s.key), m) > 0
       && JudgeAttempts(g.config, g.book, id, WindowOf(now), r.keys, amount, |r.keys|) == Fits {
      ChargeBound(g.config, g.book, id, WindowOf(now), r.keys, amount, s, m, x);
    }
  }

  lemma {:induction false} BindWithin(g: Gov, id: string, raw: string, now: nat, ok: bool, s: Slot, m: Measure, x: nat)
    requires g.config.enforce && Conserved(g.book) && Within(g, s, m, x) && BindsInWindow(g, Bind(id, raw, now, ok))
    ensures Within(BindStep(g, id, raw, now, ok).0, s, m, x)
  {
    var op := Bind(id, raw, now, ok);
    if !Moves(g, op) {
      StillBinding(g, op);
    } else {
      MovingBinding(g, op);
      if LimitOf(LimitsFor(g.config, s.key), m) > 0 {
        RebindBound(g.config, g.book, id, Glob.Trim(raw), WindowOf(now), BindingKeys(g, id, raw),
                    BindingAmount(g, id, raw), s, m, x);
      }
    }
  }

  lemma {:induction false} RebindKeepsRequests(b: Book, id: string, upstream: string, keys: seq<Key>, amount: Amount,
                                               s: Slot)
    requires id in b.reservations && ReservationValid(b.reservations[id])
    requires s.key in b.reservations[id].keys <==> s.key in keys
    ensures At(Rebind(b, id, upstream, keys, BindingAmounts(b.reservations[id], amount)).usage, s).requests
         == At(b.usage, s).requests
  {
    var r := b.reservations[id];
    ReboundSameLoad(r, upstream, keys, amount, s);
    RechargeAt(b.usage, r, ReboundReservation(r, upstream, keys, BindingAmounts(r, amount)), s);
  }

  /** A binding in any window leaves the request counts of principals, tenants and models alone. */
  lemma {:induction false} BindKeepsRequests(g: Gov, id: string, raw: string, now: nat, ok: bool, s: Slot)
    requires Conserved(g.book) && KeysCurrent(g) && s.key.scope != Upstream
    ensures At(BindStep(g, id, raw, now, ok).0.book.usage, s).requests == At(g.book.usage, s).requests
  {
    var op := Bind(id, raw, now, ok);
    if Moves(g, op) {
      MovingBinding(g, op);
      OtherKeysStay(g.config, AdmissionOf(g.book.reservations[id]), Glob.Trim(raw), s.key);
      RebindKeepsRequests(g.book, id, Glob.Trim(raw), BindingKeys(g, id, raw), BindingAmount(g, id, raw), s);
    } else {
      StillBinding(g, op);
    }
  }

  /** Settling raises a slot by no more than the attempt exceeded its reservation. */
  lemma {:induction false} SettleStepWithin(g: Gov, id: string, i: string, usage: Reported, now: nat, ok: bool,
                                            s: Slot, m: Measure, x: nat)
    requires Conserved(g.book) && ReportedInRange(usage) && Within(g, s, m, x) && id in g.book.reservations
    requires i in g.book.reservations[id].attempts && Open(g.book.reservations[id].attempts[i])
    requires SettleStep(g, id, i, usage, now, ok).1 == Done
    ensures var a := g.book.reservations[id].attempts[i];
      Within(SettleStep(g, id, i, usage, now, ok).0, s, m,
             if On(a, s) && m != Requests
                then x + Max(0, Spent(g.config, g.book.reservations[id].model, usage, m) - Share(a, m))
                else x)
  {
    var tokens, cost := UsageTotal(usage), UsageCost(g.config, g.book.reservations[id].model, usage);
    SettleAt(g.book, id, i, usage.known, tokens, cost, s);
    SettledCommitted(At(g.book.usage, s), g.book.reservations[id].attempts[i], usage.known, tokens, cost, s, m);
  }

  lemma {:induction false} SettledCommitted(u: Usage, a: Attempt, known: bool, tokens: nat, cost: nat, s: Slot,
                                            m: Measure)
    requires a.tokens >= 0 && a.cost >= 0
    ensures Committed(SettledUsage(u, a, known, tokens, cost, s), m) <= Committed(u, m)
      + if On(a, s) && m != Requests then Max(0, (if m == Tokens then tokens else cost) - Share(a, m)) else 0
  {}

  lemma {:induction false} DropWithin(g: Gov, id: string, now: nat, ok: bool, s: Slot, m: Measure, x: nat)
    requires Conserved(g.book) && Within(g, s, m, x)
    ensures Within(ReleaseStep(g, id, now, ok).0, s, m, x)
  {
    if id in g.book.reservations {
      UnreserveAllAt(g.book.usage, g.book.reservations[id], s);
      LoadNonNegative(g.book.reservations[id], s, Tokens);
      LoadNonNegative(g.book.reservations[id], s, Cost);
    }
  }

  lemma {:induction false} PartWithin(g: Gov, h: Gov, p: Book, order: seq<string>, s: Slot, m: Measure, x: nat)
    requires Within(g, s, m, x) && Conserved(p) && p.usage == g.book.usage && h.config == g.config
    requires h.book == DropEach(p, order)
    ensures Within(h, s, m, x)
  {
    DropEachCounts(p, order, s);
    DropEachLess(p, order, s);
  }

  lemma {:induction false} RestartWithin(g: Gov, p: Replica, order: seq<string>, now: nat, good: nat, s: Slot,
                                         m: Measure, x: nat)
    requires Within(g, s, m, x) && Replay(g.ledger) == Options.Some(p) && Agree(p.book, g.book) && Conserved(p.book)
    ensures Within(RestartStep(g, order, now, good), s, m, x)
  {
    var h := RestartStep(g, order, now, good);
    if good < |order| && g.config.enforce {
      PartWithin(g, h, p.book, Written(order, good), s, m, x);
    } else {
      PartWithin(g, h, p.book, order, s, m, x);
    }
  }

  /** The settlement of an attempt, as the overshoot of the operation sees it. */
  lemma {:induction false} SettledOvershoot(g: Gov, mid: Gov, next: Gov, op: Op, i: string, s: Slot, m: Measure)
    requires op.Record? && Possible(g, op) && i == Glob.Trim(op.settlement) && mid.config == g.config
    requires op.id in g.book.reservations && i !in g.book.reservations[op.id].settlements
    requires op.id in mid.book.reservations && i in mid.book.reservations[op.id].attempts
    requires (next, Done) == SettleStep(mid, op.id, i, op.usage, op.now, op.ok)
    ensures var a := mid.book.reservations[op.id].attempts[i];
      OvershootIn(g, next, op, s, m) == (if On(a, s) && m != Requests
        then Max(0, Spent(g.config, mid.book.reservations[op.id].model, op.usage, m) - Share(a, m)) else 0)
  {}

  lemma {:induction false} LimitsKept(g: Gov, h: Gov, s: Slot, m: Measure, x: nat, y: nat)
    requires Within(g, s, m, x) && g.config == h.config && x <= y && At(g.book.usage, s) == At(h.book.usage, s)
    ensures Within(h, s, m, y)
  {}

  lemma {:induction false} SettleWithin(g: Gov, mid: Gov, next: Gov, op: Op, i: string, s: Slot, m: Measure, x: nat)
    requires op.Record? && Possible(g, op) && i == Glob.Trim(op.settlement) && mid.config == g.config
    requires op.id in g.book.reservations && i !in g.book.reservations[op.id].settlements
    requires Conserved(mid.book) && Within(mid, s, m, x)
    requires op.id in mid.book.reservations && i in mid.book.reservations[op.id].attempts
    requires i !in mid.book.reservations[op.id].settlements
    requires next == SettleStep(mid, op.id, i, op.usage, op.now, op.ok).0
    ensures Within(next, s, m, x + OvershootIn(g, next, op, s, m))
  {
    var outcome := SettleStep(mid, op.id, i, op.usage, op.now, op.ok).1;
    if outcome == Done { SettledOvershoot(g, mid, next, op, i, s, m); }
    SettledWithin(mid, next, outcome, op.id, i, op.usage, op.now, op.ok, s, m, x, OvershootIn(g, next, op, s, m));
  }

  lemma {:induction false} SettledWithin(mid: Gov, next: Gov, outcome: Outcome, id: string, i: string,
                                         usage: Reported, now: nat, ok: bool,
                                         s: Slot, m: Measure, x: nat, over: nat)
    requires Conserved(mid.book) && Within(mid, s, m, x) && ReportedInRange(usage)
    requires id in mid.book.reservations && i in mid.book.reservations[id].attempts
    requires i !in mid.book.reservations[id].settlements
    requires (next, outcome) == SettleStep(mid, id, i, usage, now, ok)
    requires outcome == Done ==>
      var a := mid.book.reservations[id].attempts[i];
      over == if On(a, s) && m != Requests
        then Max(0, Spent(mid.config, mid.book.reservations[id].model, usage, m) - Share(a, m))
        else 0
    ensures Within(next, s, m, x + over)
  {
    if outcome == Done {
      UnsettledIsOpen(mid.book, id, i);
      SettleStepWithin(mid, id, i, usage, now, ok, s, m, x);
    } else {
      LimitsKept(mid, next, s, m, x, x + over);
    }
  }

  /** What reserving an attempt leaves behind for its settlement. */
  ghost predicate ReadyToSettle(g: Gov, mid: Gov, outcome: Outcome, id: string, i: string, s: Slot, m: Measure,
                                x: nat) {
    && mid.config == g.config && Conserved(mid.book) && Within(mid, s, m, x)
    && (outcome == Done ==> id in mid.book.reservations && i in mid.book.reservations[id].attempts
                            && i !in mid.book.reservations[id].settlements)
  }

  lemma {:induction false} OpenedWithin(g: Gov, id: string, i: string, now: nat, ok: bool, s: Slot, m: Measure, x: nat)
    requires g.config.enforce && Conserved(g.book) && Within(g, s, m, x)
    requires id in g.book.reservations && i !in g.book.reservations[id].attempts
    ensures var (mid, outcome) := OpenStep(g, id, i, now, ok); ReadyToSettle(g, mid, outcome, id, i, s, m, x)
  {
    OpenStepWithin(g, id, i, now, ok, s, m, x);
    OpenStepConserves(g, id, i, now, ok);
    if OpenStep(g, id, i, now, ok).1 == Done { OpenStepOpens(g, id, i, now, ok); }
  }

  /** A settlement whose attempt had to be reserved first. */
  lemma {:induction false} RecordNewWithin(g: Gov, mid: Gov, next: Gov, outcome: Outcome, op: Op, i: string, s: Slot,
                                           m: Measure, x: nat)
    requires op.Record? && Possible(g, op) && i == Glob.Trim(op.settlement)
    requires op.id in g.book.reservations && i !in g.book.reservations[op.id].settlements
    requires ReadyToSettle(g, mid, outcome, op.id, i, s, m, x)
    requires next == if outcome == Done then SettleStep(mid, op.id, i, op.usage, op.now, op.ok).0 else mid
    ensures Within(next, s, m, x + OvershootIn(g, next, op, s, m))
  {
    if outcome == Done {
      SettleWithin(g, mid, next, op, i, s, m, x);
    } else {
      LimitsKept(mid, next, s, m, x, x + OvershootIn(g, next, op, s, m));
    }
  }

  lemma {:induction false} RecordWithin(g: Gov, next: Gov, op: Op, s: Slot, m: Measure, x: nat)
    requires op.Record? && Possible(g, op) && g.config.enforce && Conserved(g.book) && Within(g, s, m, x)
    requires next == RecordStep(g, op.id, op.settlement, op.usage, op.now, op.okOpen, op.ok).0
    ensures Within(next, s, m, x + OvershootIn(g, next, op, s, m))
  {
    var i := Glob.Trim(op.settlement);
    if !ValidId(i) || op.id !in g.book.reservations || i in g.book.reservations[op.id].settlements {
      LimitsKept(g, next, s, m, x, x + OvershootIn(g, next, op, s, m));
    } else if i in g.book.reservations[op.id].attempts {
      SettleWithin(g, g, next, op, i, s, m, x);
    } else {
      var (mid, outcome) := OpenStep(g, op.id, i, op.now, op.okOpen);
      OpenedWithin(g, op.id, i, op.now, op.okOpen, s, m, x);
      RecordNewWithin(g, mid, next, outcome, op, i, s, m, x);
    }
  }

  lemma {:induction false} PlainStepWithin(g: Gov, op: Op, s: Slot, m: Measure, x: nat)
    requires Steady(g, g.config) && Possible(g, op) && !op.Apply? && !op.Record? && !op.Bind? && Within(g, s, m, x)
    ensures Within(Step(g, op), s, m, x)
  {
    if op.Restart? {
      RestartWithin(g, Replay(g.ledger).value, op.order, op.now, op.good, s, m, x);
    } else {
      LiveStepWithin(g, op, s, m, x);
    }
  }

  lemma {:induction false} LiveStepWithin(g: Gov, op: Op, s: Slot, m: Measure, x: nat)
    requires g.config.enforce && Conserved(g.book) && Possible(g, op) && Within(g, s, m, x)
    requires op.Admit? || op.Begin? || op.Release? || op.Beat?
    ensures Within(Step(g, op), s, m, x)
  {
    match op
    case Admit(id, adm, now, healthy, ok) => AdmitWithin(g, id, adm, now, healthy, ok, s, m, x);
    case Begin(id, attempt, now, ok) => BeginWithin(g, id, attempt, now, ok, s, m, x);
    case Release(id, now, ok) => DropWithin(g, id, now, ok, s, m, x);
    case Beat(id, now, ok) => BeatWithin(g, id, now, ok, s, m, x);
  }

  lemma {:induction false} BeginWithin(g: Gov, id: string, raw: string, now: nat, ok: bool, s: Slot, m: Measure, x: nat)
    requires g.config.enforce && Conserved(g.book) && Within(g, s, m, x)
    ensures Within(BeginStep(g, id, raw, now, ok).0, s, m, x)
  {
    if id in g.book.reservations { OpenStepWithin(g, id, Glob.Trim(raw), now, ok, s, m, x); }
  }

  lemma {:induction false} BeatWithin(g: Gov, id: string, now: nat, ok: bool, s: Slot, m: Measure, x: nat)
    requires Within(g, s, m, x)
    ensures Within(HeartbeatStep(g, id, now, ok), s, m, x)
  {}

  lemma {:induction false} LateBindWithin(g: Gov, op: Op, s: Slot, x: nat)
    requires op.Bind? && Possible(g, op) && Conserved(g.book) && KeysCurrent(g) && s.key.scope != Upstream
    requires Within(g, s, Requests, x)
    ensures Within(Step(g, op), s, Requests, x)
  {
    BindKeys(g, op.id, op.upstream, op.now, op.ok);
    BindKeepsRequests(g, op.id, op.upstream, op.now, op.ok, s);
  }

  /** One operation, on a slot whose bound is not at the mercy of a late binding. */
  lemma {:induction false} StepWithin(g: Gov, op: Op, s: Slot, m: Measure, x: nat)
    requires Steady(g, g.config) && Possible(g, op) && !op.Apply? && Within(g, s, m, x)
    requires BindsInWindow(g, op) || (m == Requests && s.key.scope != Upstream)
    ensures Within(Step(g, op), s, m, x + Overshoot(g, op, s, m))
  {
    if op.Record? {
      RecordWithin(g, Step(g, op), op, s, m, x);
    } else if !op.Bind? {
      PlainStepWithin(g, op, s, m, x);
    } else if BindsInWindow(g, op) {
      BindWithin(g, op.id, op.upstream, op.now, op.ok, s, m, x);
    } else {
      LateBindWithin(g, op, s, x);
    }
  }

  // ---------------------------------------------------------------- whole runs

  /** A run in enforce mode whose configuration never changes. */
  ghost predicate IsSteadyRun(cfg: Config, gs: seq<Gov>, ops: seq<Op>) {
    IsRun(cfg, gs, ops) && cfg.enforce && forall i :: 0 <= i < |ops| ==> !ops[i].Apply?
  }

  lemma {:induction false} RunSteady(cfg: Config, gs: seq<Gov>, ops: seq<Op>, n: nat)
    requires IsSteadyRun(cfg, gs, ops) && n <= |ops|
    ensures Steady(gs[n], cfg)
  {
    if n == 0 {
      InitialInvariant(cfg);
    } else {
      RunSteady(cfg, gs, ops, n - 1);
      StepSteady(gs[n - 1], ops[n - 1], cfg);
    }
  }

  lemma {:induction false} RunWithin(cfg: Config, gs: seq<Gov>, ops: seq<Op>, n: nat, s: Slot, m: Measure)
    requires IsSteadyRun(cfg, gs, ops) && n <= |ops|
    requires (forall i :: 0 <= i < n ==> BindsInWindow(gs[i], ops[i])) || (m == Requests && s.key.scope != Upstream)
    ensures Within(gs[n], s, m, TotalOvershoot(gs, ops, n, s, m))
  {
    if n > 0 {
      RunWithin(cfg, gs, ops, n - 1, s, m);
      RunSteady(cfg, gs, ops, n - 1);
      StepWithin(gs[n - 1], ops[n - 1], s, m, TotalOvershoot(gs, ops, n - 1, s, m));
    }
  }

  /** The budget bound.  With every binding made in the window of the attempts it moves, what
      is used and reserved on a limited key and window never exceeds the limit by more than
      settled attempts exceeded their own reservations there. */
  lemma {:induction false} BudgetBound(cfg: Config, gs: seq<Gov>, ops: seq<Op>, n: nat, s: Slot)
    requires IsSteadyRun(cfg, gs, ops) && n <= |ops|
    requires forall i :: 0 <= i < n ==> BindsInWindow(gs[i], ops[i])
    ensures var limits, u := LimitsFor(cfg, s.key), At(gs[n].book.usage, s);
      && (limits.tokenLimit > 0 ==>
            u.tokens + u.reservedTokens <= limits.tokenLimit + TotalOvershoot(gs, ops, n, s, Tokens))
      && (limits.costLimit > 0 ==>
            u.cost + u.reservedCost <= limits.costLimit + TotalOvershoot(gs, ops, n, s, Cost))
  {
    RunSteady(cfg, gs, ops, n);
    RunWithin(cfg, gs, ops, n, s, Tokens);
    RunWithin(cfg, gs, ops, n, s, Cost);
  }

  lemma {:induction false} NoRequestOvershoot(gs: seq<Gov>, ops: seq<Op>, n: nat, s: Slot)
    requires n <= |ops| < |gs| && forall i :: 0 <= i < |ops| ==> Possible(gs[i], ops[i])
    ensures TotalOvershoot(gs, ops, n, s, Requests) == 0
  {
    if n > 0 { NoRequestOvershoot(gs, ops, n - 1, s); }
  }

  /** The rate bound, for keys of principals, tenants and models in any run, and for
      upstream keys when no binding is late. */
  lemma {:induction false} RateBound(cfg: Config, gs: seq<Gov>, ops: seq<Op>, n: nat, s: Slot)
    requires IsSteadyRun(cfg, gs, ops) && n <= |ops| && LimitsFor(cfg, s.key).requestsPerMinute > 0
    requires s.key.scope != Upstream || forall i :: 0 <= i < n ==> BindsInWindow(gs[i], ops[i])
    ensures At(gs[n].book.usage, s).requests <= LimitsFor(cfg, s.key).requestsPerMinute
  {
    RunSteady(cfg, gs, ops, n);
    RunWithin(cfg, gs, ops, n, s, Requests);
    NoRequestOvershoot(gs, ops, n, s);
  }
}
