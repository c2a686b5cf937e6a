/** Concurrency limits over whole runs in enforce mode with a fixed configuration. */
module GovernanceConcurrency {
  import opened MapSums
  import opened GovernanceBook
  import opened GovernancePolicy
  import Options
  import opened GovernanceConservation
  import opened Governance
  import opened GovernanceBounds

  ghost predicate Holds(r: Reservation, k: Key) {
    exists i :: i in r.attempts && Open(r.attempts[i]) && k in r.attempts[i].keys
  }

  ghost function HolderOf(k: Key): Reservation -> int { r => if Holds(r, k) then 1 else 0 }

  /** Live reservations with an outstanding attempt on a key. */
  ghost function Holders(rs: map<string, Reservation>, k: Key): int { Sum(rs, HolderOf(k)) }

  ghost predicate Uncrowded(g: Gov, k: Key) {
    LimitsFor(g.config, k).maxConcurrent > 0 ==> Holders(g.book.reservations, k) <= LimitsFor(g.config, k).maxConcurrent
  }

  /** A reservation that holds a key has at least one open attempt on it. */
  lemma {:induction false} HoldersActive(rs: map<string, Reservation>, k: Key)
    ensures 0 <= Holders(rs, k) <= Active(rs, k)
  {
    forall id | id in rs ensures 0 <= HolderOf(k)(rs[id]) <= ActiveOf(k)(rs[id]) {
      var r := rs[id];
      SumNonNegative(r.attempts, HoldsKey(k));
      if Holds(r, k) {
        var i :| i in r.attempts && Open(r.attempts[i]) && k in r.attempts[i].keys;
        SumAtLeast(r.attempts, HoldsKey(k), i);
      }
    }
    SumNonNegative(rs, HolderOf(k));
    SumLeq(rs, HolderOf(k), ActiveOf(k));
  }

  /** Replacing one reservation: the others, plus at most one. */
  lemma {:induction false} HoldersReplace(rs: map<string, Reservation>, id: string, r: Reservation, k: Key)
    ensures Holders(rs[id := r], k) == Holders(rs - {id}, k) + HolderOf(k)(r)
    ensures id in rs ==> Holders(rs, k) == Holders(rs - {id}, k) + HolderOf(k)(rs[id])
    ensures id !in rs ==> Holders(rs, k) == Holders(rs - {id}, k)
  {
    SumRemove(rs[id := r], HolderOf(k), id);
    assert rs[id := r] - {id} == rs - {id};
    if id in rs { SumRemove(rs, HolderOf(k), id); } else { assert rs - {id} == rs; }
  }

  /** A reservation that replaces another without taking up a key keeps the bound. */
  lemma {:induction false} FewerHolders(g: Gov, id: string, r: Reservation, k: Key)
    requires Uncrowded(g, k)
    requires Holds(r, k) ==> id in g.book.reservations && Holds(g.book.reservations[id], k)
    ensures Uncrowded(g.(book := g.book.(reservations := g.book.reservations[id := r])), k)
  {
    HoldersReplace(g.book.reservations, id, r, k);
  }

  /** A reservation that takes up a key after the others left room for it keeps the bound. */
  lemma {:induction false} JudgedHolders(cfg: Config, rs: map<string, Reservation>, id: string, r: Reservation, k: Key)
    requires LimitsFor(cfg, k).maxConcurrent > 0 ==> Active(rs - {id}, k) + 1 <= LimitsFor(cfg, k).maxConcurrent
    ensures LimitsFor(cfg, k).maxConcurrent > 0 ==> Holders(rs[id := r], k) <= LimitsFor(cfg, k).maxConcurrent
  {
    HoldersReplace(rs, id, r, k);
    HoldersActive(rs - {id}, k);
  }

  lemma {:induction false} JudgedConcurrency(cfg: Config, b: Book, id: string, window: int, keys: seq<Key>,
                                             amount: Amount, k: Key)
    requires cfg.enforce && JudgeAttempts(cfg, b, id, window, keys, amount, |keys|) == Fits && k in keys
    ensures LimitsFor(cfg, k).maxConcurrent > 0 ==>
      Active(b.reservations - {id}, k) + 1 <= LimitsFor(cfg, k).maxConcurrent
  {
    JudgeAttemptsFits(cfg, b, id, window, keys, amount, |keys|);
    var i :| 0 <= i < |keys| && keys[i] == k;
    assert JudgeAttempt(cfg, b, id, window, keys[i], amount) == Fits;
  }

  lemma {:induction false} OpenedHolders(g: Gov, id: string, r: Reservation, i: string, window: int, amount: Amount,
                                         k: Key)
    requires g.config.enforce && Uncrowded(g, k) && i !in r.attempts
    requires if id in g.book.reservations then r == g.book.reservations[id] else r.attempts == map[]
    requires JudgeAttempts(g.config, g.book, id, window, r.keys, amount, |r.keys|) == Fits
    ensures Uncrowded(g.(book := OpenAttempt(g.book, id, r, i, NewAttempt(window, amount, r.keys))), k)
  {
    var a := NewAttempt(window, amount, r.keys);
    var q := OpenAttempt(g.book, id, r, i, a).reservations[id];
    if k in r.keys {
      JudgedConcurrency(g.config, g.book, id, window, r.keys, amount, k);
      JudgedHolders(g.config, g.book.reservations, id, q, k);
    } else {
      if Holds(q, k) {
        var j :| j in q.attempts && Open(q.attempts[j]) && k in q.attempts[j].keys;
        assert r.attempts[j] == q.attempts[j];
      }
      FewerHolders(g, id, q, k);
    }
  }

  lemma {:induction false} SettledHolders(g: Gov, id: string, i: string, known: bool, tokens: int, cost: int, k: Key)
    requires Uncrowded(g, k) && id in g.book.reservations && i in g.book.reservations[id].attempts
    ensures Uncrowded(g.(book := Settle(g.book, id, i, i, known, tokens, cost)), k)
  {
    var r, q := g.book.reservations[id], Settle(g.book, id, i, i, known, tokens, cost).reservations[id];
    if Holds(q, k) {
      var j :| j in q.attempts && Open(q.attempts[j]) && k in q.attempts[j].keys;
      assert r.attempts[j] == q.attempts[j];
    }
    FewerHolders(g, id, q, k);
  }

  lemma {:induction false} DroppedHolders(g: Gov, id: string, k: Key)
    requires Uncrowded(g, k)
    ensures Uncrowded(g.(book := Drop(g.book, id)), k)
  {
    if id in g.book.reservations {
      SumRemove(g.book.reservations, HolderOf(k), id);
    }
  }

  // ---------------------------------------------------------------- bindings

  lemma {:induction false} ReboundHoldsSame(r: Reservation, upstream: string, keys: seq<Key>, amount: Amount, k: Key)
    requires ReservationValid(r) && (k in r.keys <==> k in keys)
    ensures Holds(ReboundReservation(r, upstream, keys, BindingAmounts(r, amount)), k) ==> Holds(r, k)
  {
    var q := ReboundReservation(r, upstream, keys, BindingAmounts(r, amount));
    if Holds(q, k) {
      var j :| j in q.attempts && Open(q.attempts[j]) && k in q.attempts[j].keys;
      assert AttemptValid(r.attempts[j], r);
    }
  }

  lemma {:induction false} OwnAtLeastOne(r: Reservation, window: int, i: string)
    requires i in r.attempts && Open(r.attempts[i]) && r.attempts[i].window == window
    ensures OwnIn(r, window) >= 1
  {
    SumAtLeast(r.attempts, OpenIn(window), i);
  }

  lemma {:induction false} JudgedBindingConcurrency(cfg: Config, b: Book, id: string, window: int, keys: seq<Key>,
                                                    amount: Amount, k: Key)
    requires cfg.enforce && id in b.reservations && k in keys
    requires JudgeBindings(cfg, b, id, window, keys, amount, |keys|) == Fits
    ensures LimitsFor(cfg, k).maxConcurrent > 0 ==>
              Active(b.reservations - {id}, k) + OwnIn(b.reservations[id], window) <= LimitsFor(cfg, k).maxConcurrent
  {
    JudgeBindingsFits(cfg, b, id, window, keys, amount, |keys|);
    var i :| 0 <= i < |keys| && keys[i] == k;
    assert JudgeBinding(cfg, b, id, window, keys[i], amount) == Fits;
  }

  lemma {:induction false} ReboundHolders(g: Gov, id: string, upstream: string, window: int, keys: seq<Key>,
                                          amount: Amount, k: Key)
    requires g.config.enforce && Uncrowded(g, k) && id in g.book.reservations
    requires JudgeBindings(g.config, g.book, id, window, keys, amount, |keys|) == Fits
    requires forall i :: i in g.book.reservations[id].attempts && Open(g.book.reservations[id].attempts[i]) ==>
               g.book.reservations[id].attempts[i].window == window
    ensures Uncrowded(g.(book := Rebind(g.book, id, upstream, keys, BindingAmounts(g.book.reservations[id], amount))),
                      k)
  {
    var r := g.book.reservations[id];
    var q := ReboundReservation(r, upstream, keys, BindingAmounts(r, amount));
    if Holds(q, k) {
      var j :| j in q.attempts && Open(q.attempts[j]) && k in q.attempts[j].keys;
      OwnAtLeastOne(r, window, j);
      JudgedBindingConcurrency(g.config, g.book, id, window, keys, amount, k);
      JudgedHolders(g.config, g.book.reservations, id, q, k);
    } else {
      FewerHolders(g, id, q, k);
    }
  }

  // ---------------------------------------------------------------- steps and runs

  lemma {:induction false} SameConfig(g: Gov, h: Gov, k: Key)
    requires Uncrowded(g, k) && h.config == g.config && h.book.reservations == g.book.reservations
    ensures Uncrowded(h, k)
  {}

  lemma {:induction false} AdmitUncrowded(g: Gov, rawId: string, raw: Admission, now: nat, healthy: bool, ok: bool,
                                          k: Key)
    requires g.config.enforce && Uncrowded(g, k)
    ensures Uncrowded(AdmitStep(g, rawId, raw, now, healthy, ok).0, k)
  {
    var id, adm := Glob.Trim(rawId), Normalize(raw);
    var keys := BudgetKeys(g.config, adm);
    var amount := Amounts(g.config, g.estimates, adm.model, keys);
    var h := AdmitStep(g, rawId, raw, now, healthy, ok).0;
    AdmitShape(g, h, rawId, raw, now, healthy, ok, id, adm, keys, amount);
    AdmittedUncrowded(g, h, id, adm, WindowOf(now), keys, amount, k);
  }

  lemma {:induction false} AdmittedUncrowded(g: Gov, h: Gov, id: string, adm: Admission, window: int, keys: seq<Key>,
                                             amount: Amount, k: Key)
    requires g.config.enforce && Uncrowded(g, k) && h.config == g.config
    requires h.book == g.book
          || (&& id !in g.book.reservations && JudgeAttempts(g.config, g.book, id, window, keys, amount, |keys|) == Fits
              && h.book == OpenAttempt(g.book, id, NewReservation(adm, keys), FIRST_ATTEMPT,
                                       NewAttempt(window, amount, keys)))
    ensures Uncrowded(h, k)
  {
    if h.book != g.book { OpenedHolders(g, id, NewReservation(adm, keys), FIRST_ATTEMPT, window, amount, k); }
  }

  lemma {:induction false} OpenStepUncrowded(g: Gov, id: string, i: string, now: nat, ok: bool, k: Key)
    requires g.config.enforce && Uncrowded(g, k) && id in g.book.reservations && i !in g.book.reservations[id].attempts
    ensures Uncrowded(OpenStep(g, id, i, now, ok).0, k)
  {
    var r := g.book.reservations[id];
    var amount := Amounts(g.config, g.estimates, r.model, r.keys);
    if JudgeAttempts(g.config, g.book, id, WindowOf(now), r.keys, amount, |r.keys|) == Fits {
      OpenedHolders(g, id, r, i, WindowOf(now), amount, k);
    }
  }

  lemma {:induction false} SettleStepUncrowded(g: Gov, id: string, i: string, usage: Reported, now: nat, ok: bool,
                                               k: Key)
    requires Uncrowded(g, k) && ReportedInRange(usage) && id in g.book.reservations
    requires i in g.book.reservations[id].attempts
    ensures Uncrowded(SettleStep(g, id, i, usage, now, ok).0, k)
  {
    SettledHolders(g, id, i, usage.known, UsageTotal(usage), UsageCost(g.config, g.book.reservations[id].model, usage),
                   k);
  }

  lemma {:induction false} RecordUncrowded(g: Gov, id: string, raw: string, usage: Reported, now: nat, okOpen: bool,
                                           ok: bool, k: Key)
    requires g.config.enforce && Uncrowded(g, k) && ReportedInRange(usage)
    ensures Uncrowded(RecordStep(g, id, raw, usage, now, okOpen, ok).0, k)
  {
    var i := Glob.Trim(raw);
    if id in g.book.reservations {
      if i in g.book.reservations[id].attempts {
        SettleStepUncrowded(g, id, i, usage, now, ok, k);
      } else {
        var (h, outcome) := OpenStep(g, id, i, now, okOpen);
        OpenStepUncrowded(g, id, i, now, okOpen, k);
        if outcome == Done { SettleStepUncrowded(h, id, i, usage, now, ok, k); }
      }
    }
  }

  lemma {:induction false} BindUncrowded(g: Gov, id: string, raw: string, now: nat, ok: bool, k: Key)
    requires g.config.enforce && Uncrowded(g, k) && Conserved(g.book) && KeysCurrent(g)
    requires BindsInWindow(g, Bind(id, raw, now, ok)) || k.scope != Upstream
    ensures Uncrowded(BindStep(g, id, raw, now, ok).0, k)
  {
    var op := Bind(id, raw, now, ok);
    if !Moves(g, op) {
      StillBinding(g, op);
    } else {
      MovingBinding(g, op);
      var upstream, r := Glob.Trim(raw), g.book.reservations[id];
      var keys, amount := BindingKeys(g, id, raw), BindingAmount(g, id, raw);
      if k.scope != Upstream {
        OtherKeysStay(g.config, AdmissionOf(r), upstream, k);
        ReboundHoldsSame(r, upstream, keys, amount, k);
        FewerHolders(g, id, ReboundReservation(r, upstream, keys, BindingAmounts(r, amount)), k);
      } else {
        ReboundHolders(g, id, upstream, WindowOf(now), keys, amount, k);
      }
    }
  }

  /** Two books that agree have the same holders. */
  lemma {:induction false} SameHolders(p: Book, b: Book, k: Key)
    requires Agree(p, b)
    ensures Holders(p.reservations, k) == Holders(b.reservations, k)
  {
    forall id | id in p.reservations ensures HolderOf(k)(p.reservations[id]) == HolderOf(k)(b.reservations[id]) {
      SameHolder(p.reservations[id], b.reservations[id], k);
    }
    SumSame(p.reservations, HolderOf(k), b.reservations, HolderOf(k));
  }

  lemma {:induction false} SameHolder(r: Reservation, q: Reservation, k: Key)
    requires SameReservation(r, q)
    ensures Holds(r, k) <==> Holds(q, k)
  {
    assert forall i :: i in r.attempts ==> SameAttempt(r.attempts[i], q.attempts[i]);
  }

  lemma {:induction false} PartUncrowded(g: Gov, h: Gov, p: Book, order: seq<string>, k: Key)
    requires Uncrowded(g, k) && Agree(p, g.book) && h.config == g.config && h.book == DropEach(p, order)
    ensures Uncrowded(h, k)
  {
    DropEachPart(p, order);
    SameHolders(p, g.book, k);
    SumPart(h.book.reservations, p.reservations, HolderOf(k));
  }

  lemma {:induction false} RestartUncrowded(g: Gov, p: Replica, order: seq<string>, now: nat, good: nat, k: Key)
    requires Uncrowded(g, k) && Replay(g.ledger) == Options.Some(p) && Agree(p.book, g.book)
    ensures Uncrowded(RestartStep(g, order, now, good), k)
  {
    var h := RestartStep(g, order, now, good);
    if good < |order| && g.config.enforce {
      PartUncrowded(g, h, p.book, Written(order, good), k);
    } else {
      PartUncrowded(g, h, p.book, order, k);
    }
  }

  lemma {:induction false} ReleaseUncrowded(g: Gov, id: string, now: nat, ok: bool, k: Key)
    requires Uncrowded(g, k)
    ensures Uncrowded(ReleaseStep(g, id, now, ok).0, k)
  {
    DroppedHolders(g, id, k);
  }

  lemma {:induction false} BeginUncrowded(g: Gov, id: string, raw: string, now: nat, ok: bool, k: Key)
    requires g.config.enforce && Uncrowded(g, k)
    ensures Uncrowded(BeginStep(g, id, raw, now, ok).0, k)
  {
    var i := Glob.Trim(raw);
    if id in g.book.reservations && i !in g.book.reservations[id].attempts { OpenStepUncrowded(g, id, i, now, ok, k); }
  }

  lemma {:induction false} LiveUncrowded(g: Gov, op: Op, k: Key)
    requires g.config.enforce && Conserved(g.book) && KeysCurrent(g)
    requires Possible(g, op) && !op.Apply? && !op.Restart? && Uncrowded(g, k)
    requires BindsInWindow(g, op) || k.scope != Upstream
    ensures Uncrowded(Step(g, op), k)
  {
    match op
    case Admit(id, adm, now, healthy, ok) => AdmitUncrowded(g, id, adm, now, healthy, ok, k);
    case Bind(id, upstream, now, ok) => BindUncrowded(g, id, upstream, now, ok, k);
    case Begin(id, attempt, now, ok) => BeginUncrowded(g, id, attempt, now, ok, k);
    case Record(id, settlement, usage, now, okOpen, ok) => RecordUncrowded(g, id, settlement, usage, now, okOpen, ok,
                                                                           k);
    case Release(id, now, ok) => ReleaseUncrowded(g, id, now, ok, k);
    case Beat(id, now, ok) => SameConfig(g, HeartbeatStep(g, id, now, ok), k);
  }

  lemma {:induction false} StepUncrowded(g: Gov, op: Op, k: Key)
    requires Steady(g, g.config) && Possible(g, op) && !op.Apply? && Uncrowded(g, k)
    requires BindsInWindow(g, op) || k.scope != Upstream
    ensures Uncrowded(Step(g, op), k)
  {
    if op.Restart? {
      RestartUncrowded(g, Replay(g.ledger).value, op.order, op.now, op.good, k);
    } else {
      LiveUncrowded(g, op, k);
    }
  }

  lemma {:induction false} RunUncrowded(cfg: Config, gs: seq<Gov>, ops: seq<Op>, n: nat, k: Key)
    requires IsSteadyRun(cfg, gs, ops) && n <= |ops|
    requires k.scope != Upstream || forall i :: 0 <= i < n ==> BindsInWindow(gs[i], ops[i])
    ensures Uncrowded(gs[n], k)
  {
    if n == 0 {
      assert Holders(gs[0].book.reservations, k) == 0;
    } else {
      RunUncrowded(cfg, gs, ops, n - 1, k);
      RunSteady(cfg, gs, ops, n - 1);
      StepUncrowded(gs[n - 1], ops[n - 1], k);
    }
  }

  /** The concurrency bound: at no time do more reservations hold an outstanding attempt on a
      key than its limit, for keys of principals, tenants and models in any run, and for
      upstream keys when no binding is late. */
  lemma {:induction false} ConcurrencyBound(cfg: Config, gs: seq<Gov>, ops: seq<Op>, n: nat, k: Key)
    requires IsSteadyRun(cfg, gs, ops) && n <= |ops| && LimitsFor(cfg, k).maxConcurrent > 0
    requires k.scope != Upstream || forall i :: 0 <= i < n ==> BindsInWindow(gs[i], ops[i])
    ensures Holders(gs[n].book.reservations, k) <= LimitsFor(cfg, k).maxConcurrent
  {
    RunUncrowded(cfg, gs, ops, n, k);
    RunSteady(cfg, gs, ops, n);
  }
}
