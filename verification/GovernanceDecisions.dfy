/** The loops that decide: applicable keys, their limits, the amounts to reserve, the attempts
    in flight, and the verdict over all keys. */
module GovernanceDecisions {
  import opened MapSums
  import opened GovernanceBook
  import opened GovernancePolicy
  import opened Governance
  import Glob

  method CollectKeys(cfg: Config, adm: Admission) returns (keys: seq<Key>)
    ensures keys == BudgetKeys(cfg, adm)
  {
    keys := [Key(Principal, adm.principal)];
    for i := 0 to |cfg.budgets|
      invariant keys == KeysUpTo(cfg, adm, i)
    {
      keys := AddKey(cfg.budgets[i], adm, keys);
    }
  }

  method AddKey(budget: Budget, adm: Admission, keys: seq<Key>) returns (more: seq<Key>)
    ensures more == if Applies(budget, adm) && KeyOf(budget, adm) !in keys then keys + [KeyOf(budget, adm)] else keys
  {
    more := keys;
    var value := ValueFor(budget.scope, adm);
    if value != "" {
      var matched := Glob.DecideBudgetMatch(budget.pattern, value);
      if matched && Key(budget.scope, value) !in keys { more := keys + [Key(budget.scope, value)]; }
    }
  }

  method FindTenantBudget(cfg: Config) returns (required: bool)
    ensures required == TenantRequired(cfg)
  {
    for i := 0 to |cfg.budgets|
      invariant forall j :: 0 <= j < i ==> !cfg.budgets[j].scope.Tenant?
    {
      if cfg.budgets[i].scope.Tenant? { return true; }
    }
    required := false;
  }

  method FindLimits(cfg: Config, key: Key) returns (limits: Limits)
    ensures limits == LimitsFor(cfg, key)
  {
    limits := Limits(cfg.denyUnknown, 0, 0, 0, 0);
    if IsPrincipalKey(key) {
      limits := Merge(limits, Limits(false, cfg.maxConcurrent, cfg.requestsPerMinute, cfg.tokenLimit, cfg.costLimit));
    }
    for i := 0 to |cfg.budgets|
      invariant limits == LimitsUpTo(cfg, key, i)
    {
      var b := cfg.budgets[i];
      if b.scope == key.scope {
        var matched := Glob.DecideBudgetMatch(b.pattern, key.value);
        if matched {
          limits := Merge(limits,
                          Limits(cfg.denyUnknown, b.maxConcurrent, b.requestsPerMinute, b.tokenLimit, b.costLimit));
        }
      }
    }
  }

  method FindAmounts(cfg: Config, estimates: map<string, Estimate>, model: string,
                     keys: seq<Key>) returns (amount: Amount)
    ensures amount == Amounts(cfg, estimates, model, keys)
  {
    var tokenLimit, costLimit := 0, 0;
    for i := 0 to |keys|
      invariant tokenLimit == TokenLimitOver(cfg, keys, i) && costLimit == CostLimitOver(cfg, keys, i)
    {
      var limits := FindLimits(cfg, keys[i]);
      if limits.tokenLimit > 0 && (tokenLimit == 0 || limits.tokenLimit < tokenLimit) {
        tokenLimit := limits.tokenLimit;
      }
      if limits.costLimit > 0 && (costLimit == 0 || limits.costLimit < costLimit) { costLimit := limits.costLimit; }
    }
    var tokens, cost := BaseTokens(cfg, estimates, model), BaseCost(cfg, estimates, model);
    amount := Amount(if tokenLimit == 0 then 0 else Min(tokens, tokenLimit),
                     if costLimit == 0 then 0 else Min(cost, costLimit));
  }

  // ---------------------------------------------------------------- attempts in flight

  /** The attempts of one reservation for which a test holds; f is its measure. */
  method CountAttempts(attempts: map<string, Attempt>, test: Attempt -> bool, ghost f: Attempt -> int) returns (n: int)
    requires forall a :: f(a) == if test(a) then 1 else 0
    ensures n == Sum(attempts, f)
  {
    n := 0;
    var todo := attempts;
    while todo != map[]
      invariant n + Sum(todo, f) == Sum(attempts, f)
      decreases |todo|
    {
      assert todo.Keys != {};
      var i :| i in todo.Keys;
      SumRemove(todo, f, i);
      if test(todo[i]) { n := n + 1; }
      todo := todo - {i};
    }
  }

  method CountActive(reservations: map<string, Reservation>, key: Key, exclude: string) returns (n: int)
    ensures n == Active(reservations - {exclude}, key)
  {
    n := 0;
    var todo := reservations - {exclude};
    ghost var all := todo;
    while todo != map[]
      invariant n + Sum(todo, ActiveOf(key)) == Sum(all, ActiveOf(key))
      decreases |todo|
    {
      assert todo.Keys != {};
      var id :| id in todo.Keys;
      SumRemove(todo, ActiveOf(key), id);
      var held := CountAttempts(todo[id].attempts, a => Open(a) && key in a.keys, HoldsKey(key));
      n := n + held;
      todo := todo - {id};
    }
  }

  // ---------------------------------------------------------------- verdicts

  method JudgeKey(limits: Limits, enforce: bool, unknown: int, active: int, requests: int, tokens: int, cost: int)
    returns (verdict: Verdict)
    ensures verdict == if enforce then Judge(limits, unknown, active, requests, tokens, cost) else Fits
  {
    verdict := Fits;
    if enforce {
      if limits.denyUnknown && unknown > 0 { verdict := UnknownUsage; }
      else if limits.maxConcurrent > 0 && active > limits.maxConcurrent { verdict := ConcurrentLimit; }
      else if limits.requestsPerMinute > 0 && requests > limits.requestsPerMinute { verdict := RateLimit; }
      else if limits.tokenLimit > 0 && tokens > limits.tokenLimit { verdict := TokenLimit; }
      else if limits.costLimit > 0 && cost > limits.costLimit { verdict := CostLimit; }
    }
  }

  /** One more attempt against the limits of all its keys; the first refusal stands. */
  method EvaluateLimits(cfg: Config, b: Book, id: string, window: int, keys: seq<Key>,
                        amount: Amount) returns (verdict: Verdict)
    ensures verdict == JudgeAttempts(cfg, b, id, window, keys, amount, |keys|)
  {
    verdict := Fits;
    for i := 0 to |keys|
      invariant verdict == JudgeAttempts(cfg, b, id, window, keys, amount, i)
    {
      var limits := FindLimits(cfg, keys[i]);
      var u := At(b.usage, Slot(keys[i], window));
      var active := CountActive(b.reservations, keys[i], id);
      var v := JudgeKey(limits, cfg.enforce, u.unknown, active + 1, u.requests + 1,
                        u.tokens + u.reservedTokens + amount.tokens, u.cost + u.reservedCost + amount.cost);
      if verdict == Fits { verdict := v; }
    }
  }

  /** The amounts a binding will apply to the open attempts. */
  method ListAmounts(r: Reservation, amount: Amount) returns (amounts: map<string, Amount>)
    ensures amounts == BindingAmounts(r, amount)
  {
    amounts := map[];
    var todo := r.attempts.Keys;
    while todo != {}
      invariant todo <= r.attempts.Keys
      invariant forall i :: i in amounts <==> i in r.attempts && i !in todo && Open(r.attempts[i])
      invariant forall i :: i in amounts ==> amounts[i] == amount
      decreases |todo|
    {
      var i :| i in todo;
      if Open(r.attempts[i]) { amounts := amounts[i := amount]; }
      todo := todo - {i};
    }
  }

  lemma {:induction false} OneMore(n: int, x: int)
    ensures (n + 1) * x == n * x + x
  {
    Distributes(n, 1, x);
  }

  /** The reservation's own attempts of a window and what they will then hold. */
  method CountOwn(r: Reservation, window: int, amounts: map<string, Amount>, ghost amount: Amount)
    returns (own: int, tokens: int, cost: int)
    requires amounts == BindingAmounts(r, amount)
    ensures own == OwnIn(r, window) && tokens == own * amount.tokens && cost == own * amount.cost
  {
    own, tokens, cost := 0, 0, 0;
    var todo := r.attempts;
    while todo != map[]
      invariant todo.Keys <= r.attempts.Keys && forall i :: i in todo ==> todo[i] == r.attempts[i]
      invariant own + Sum(todo, OpenIn(window)) == Sum(r.attempts, OpenIn(window))
      invariant tokens == own * amount.tokens && cost == own * amount.cost
      decreases |todo|
    {
      assert todo.Keys != {};
      var i :| i in todo.Keys;
      SumRemove(todo, OpenIn(window), i);
      if Open(todo[i]) && todo[i].window == window {
        OneMore(own, amount.tokens);
        OneMore(own, amount.cost);
        own, tokens, cost := own + 1, tokens + amounts[i].tokens, cost + amounts[i].cost;
      }
      todo := todo - {i};
    }
  }

  /** A binding against the limits of all its new keys. */
  method EvaluateBinding(cfg: Config, b: Book, id: string, window: int, keys: seq<Key>, amounts: map<string, Amount>,
                         ghost amount: Amount)
    returns (verdict: Verdict)
    requires id in b.reservations && amounts == BindingAmounts(b.reservations[id], amount)
    ensures verdict == JudgeBindings(cfg, b, id, window, keys, amount, |keys|)
  {
    verdict := Fits;
    for i := 0 to |keys|
      invariant verdict == JudgeBindings(cfg, b, id, window, keys, amount, i) == Fits
    {
      verdict := EvaluateNewKey(cfg, b, id, window, keys[i], amounts, amount);
      if verdict != Fits {
        BindingRefused(cfg, b, id, window, keys, amount, i + 1);
        return;
      }
    }
  }

  method EvaluateNewKey(cfg: Config, b: Book, id: string, window: int, key: Key, amounts: map<string, Amount>,
                        ghost amount: Amount)
    returns (verdict: Verdict)
    requires id in b.reservations && amounts == BindingAmounts(b.reservations[id], amount)
    ensures verdict == if cfg.enforce then JudgeBinding(cfg, b, id, window, key, amount) else Fits
  {
    var limits := FindLimits(cfg, key);
    var u := At(b.usage, Slot(key, window));
    var active := CountActive(b.reservations, key, id);
    var own, tokens, cost := CountOwn(b.reservations[id], window, amounts, amount);
    verdict := JudgeKey(limits, cfg.enforce, u.unknown, active + own, u.requests + own,
                        u.tokens + (u.reservedTokens + tokens), u.cost + (u.reservedCost + cost));
  }

  lemma {:induction false} BindingRefused(cfg: Config, b: Book, id: string, window: int, keys: seq<Key>,
                                          amount: Amount, n: nat)
    requires n <= |keys| && id in b.reservations && JudgeBindings(cfg, b, id, window, keys, amount, n) != Fits
    ensures JudgeBindings(cfg, b, id, window, keys, amount, |keys|)
         == JudgeBindings(cfg, b, id, window, keys, amount, n)
    decreases |keys| - n
  {
    if n < |keys| { BindingRefused(cfg, b, id, window, keys, amount, n + 1); }
  }
}
