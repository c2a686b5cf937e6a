/** What the governance configuration asks for: which budget keys apply to a request, their
    limits, how much an attempt reserves, and when a request is refused. */
module GovernancePolicy {
  import opened MapSums
  import opened GovernanceBook
  import Glob

  const MAX_INT64 := 0x7fff_ffff_ffff_ffff
  const MIN_INT64 := -0x8000_0000_0000_0000

  function Max(x: int, y: int): int { if x > y then x else y }

  function Min(x: int, y: int): int { if x < y then x else y }

  /** Saturating int64 addition. */
  function SafeAdd(left: int, right: int): (r: int)
    ensures MIN_INT64 <= left + right <= MAX_INT64 ==> r == left + right
    ensures left <= MAX_INT64 && left + right > MAX_INT64 ==> r == MAX_INT64
    ensures left >= MIN_INT64 && left + right < MIN_INT64 ==> r == MIN_INT64
  {
    if right > 0 && left > MAX_INT64 - right then MAX_INT64
    else if right < 0 && left < MIN_INT64 - right then MIN_INT64
    else left + right
  }

  /** Saturating product of non-negative numbers. */
  function SafeMul(left: nat, right: nat): nat {
    if left == 0 || right == 0 then 0
    else if left > MAX_INT64 / right then MAX_INT64
    else left * right
  }

  datatype Budget = Budget(scope: Scope, pattern: string, maxConcurrent: nat, requestsPerMinute: nat,
                           tokenLimit: nat, costLimit: nat)

  datatype Price = Price(input: nat, output: nat)

  datatype Config = Config(enforce: bool, denyUnknown: bool,
                           maxConcurrent: nat, requestsPerMinute: nat, tokenLimit: nat, costLimit: nat,
                           tokenReservation: nat, costReservation: nat, minTokens: nat, maxTokens: nat,
                           minCost: nat, maxCost: nat, forecast: bool,
                           prices: map<string, Price>, budgets: seq<Budget>)

  datatype Limits = Limits(denyUnknown: bool, maxConcurrent: nat, requestsPerMinute: nat,
                           tokenLimit: nat, costLimit: nat)

  datatype Estimate = Estimate(tokens: nat, cost: nat)

  datatype Admission = Admission(principal: string, tenant: string, model: string, upstream: string)

  datatype Reported = Reported(known: bool, input: int, output: int, total: int)

  // ---------------------------------------------------------------- budget keys

  function ValueFor(scope: Scope, adm: Admission): string {
    match scope
    case Principal => adm.principal
    case Tenant => adm.tenant
    case Model => adm.model
    case Upstream => adm.upstream
  }

  predicate Applies(budget: Budget, adm: Admission) {
    ValueFor(budget.scope, adm) != "" && Glob.BudgetMatches(budget.pattern, ValueFor(budget.scope, adm))
  }

  function KeyOf(budget: Budget, adm: Admission): Key { Key(budget.scope, ValueFor(budget.scope, adm)) }

  function KeysUpTo(cfg: Config, adm: Admission, n: nat): seq<Key>
    requires n <= |cfg.budgets|
  {
    if n == 0 then [Key(Principal, adm.principal)] else
      var keys := KeysUpTo(cfg, adm, n - 1);
      var budget := cfg.budgets[n - 1];
      if Applies(budget, adm) && KeyOf(budget, adm) !in keys then keys + [KeyOf(budget, adm)] else keys
  }

  /** The principal's own key, then one key per applicable budget, without repetition. */
  function BudgetKeys(cfg: Config, adm: Admission): seq<Key> { KeysUpTo(cfg, adm, |cfg.budgets|) }

  lemma {:induction false} KeysForAppend(keys: seq<Key>, principal: string, next: Key)
    requires KeysFor(keys, principal) && next !in keys && (IsPrincipalKey(next) ==> next == keys[0])
    ensures KeysFor(keys + [next], principal)
  {}

  lemma {:induction false} KeysUpToFor(cfg: Config, adm: Admission, n: nat)
    requires n <= |cfg.budgets|
    ensures KeysFor(KeysUpTo(cfg, adm, n), adm.principal)
  {
    if n > 0 {
      KeysUpToFor(cfg, adm, n - 1);
      var keys, next := KeysUpTo(cfg, adm, n - 1), KeyOf(cfg.budgets[n - 1], adm);
      if next !in keys { KeysForAppend(keys, adm.principal, next); }
    }
  }

  /** The principal's own key, or that of one of the first n budgets. */
  ghost predicate Chargeable(cfg: Config, adm: Admission, n: nat, k: Key)
    requires n <= |cfg.budgets|
  {
    || k == Key(Principal, adm.principal)
    || exists i :: 0 <= i < n && Applies(cfg.budgets[i], adm) && k == KeyOf(cfg.budgets[i], adm)
  }

  lemma {:induction false} ChargeableNext(cfg: Config, adm: Admission, n: nat, k: Key)
    requires 0 < n <= |cfg.budgets|
    ensures Chargeable(cfg, adm, n, k) <==>
      Chargeable(cfg, adm, n - 1, k) || (Applies(cfg.budgets[n - 1], adm) && k == KeyOf(cfg.budgets[n - 1], adm))
  {}

  lemma {:induction false} KeysUpToShape(cfg: Config, adm: Admission, n: nat, k: Key)
    requires n <= |cfg.budgets|
    ensures k in KeysUpTo(cfg, adm, n) <==> Chargeable(cfg, adm, n, k)
  {
    if n > 0 {
      KeysUpToShape(cfg, adm, n - 1, k);
      ChargeableNext(cfg, adm, n, k);
    }
  }

  /** A key applies exactly when it is the principal's own or some budget of its scope
      matches its value; the keys are distinct and start with the principal's. */
  lemma {:induction false} BudgetKeysShape(cfg: Config, adm: Admission)
    ensures KeysFor(BudgetKeys(cfg, adm), adm.principal)
    ensures forall k :: k in BudgetKeys(cfg, adm) <==>
              k == Key(Principal, adm.principal) ||
              exists i :: 0 <= i < |cfg.budgets| && Applies(cfg.budgets[i], adm) && k == KeyOf(cfg.budgets[i], adm)
  {
    KeysUpToFor(cfg, adm, |cfg.budgets|);
    forall k ensures k in BudgetKeys(cfg, adm) <==> Chargeable(cfg, adm, |cfg.budgets|, k) {
      KeysUpToShape(cfg, adm, |cfg.budgets|, k);
    }
  }

  /** Choosing another upstream changes only the upstream-scoped keys. */
  lemma {:induction false} OtherKeysStay(cfg: Config, adm: Admission, upstream: string, k: Key)
    requires k.scope != Upstream
    ensures k in BudgetKeys(cfg, adm) <==> k in BudgetKeys(cfg, adm.(upstream := upstream))
  {
    BudgetKeysShape(cfg, adm);
    BudgetKeysShape(cfg, adm.(upstream := upstream));
    forall i | 0 <= i < |cfg.budgets| && cfg.budgets[i].scope == k.scope
      ensures Applies(cfg.budgets[i], adm) == Applies(cfg.budgets[i], adm.(upstream := upstream))
      ensures KeyOf(cfg.budgets[i], adm) == KeyOf(cfg.budgets[i], adm.(upstream := upstream))
    {}
  }

  // ---------------------------------------------------------------- limits

  /** The stricter of two limits, zero meaning unlimited. */
  function Stricter(left: nat, right: nat): (r: nat)
    ensures r == 0 <==> left == 0 && right == 0
    ensures left > 0 ==> r <= left
    ensures right > 0 ==> r <= right
    ensures r == left || r == right
  {
    if left == 0 then right else if right == 0 || left < right then left else right
  }

  function Merge(left: Limits, right: Limits): Limits {
    Limits(left.denyUnknown || right.denyUnknown, Stricter(left.maxConcurrent, right.maxConcurrent),
           Stricter(left.requestsPerMinute, right.requestsPerMinute),
           Stricter(left.tokenLimit, right.tokenLimit), Stricter(left.costLimit, right.costLimit))
  }

  function Covers(budget: Budget, key: Key): bool {
    budget.scope == key.scope && Glob.BudgetMatches(budget.pattern, key.value)
  }

  function LimitsUpTo(cfg: Config, key: Key, n: nat): Limits
    requires n <= |cfg.budgets|
  {
    if n == 0 then
      var unlimited := Limits(cfg.denyUnknown, 0, 0, 0, 0);
      if IsPrincipalKey(key)
      then Merge(unlimited, Limits(false, cfg.maxConcurrent, cfg.requestsPerMinute, cfg.tokenLimit, cfg.costLimit))
      else unlimited
    else
      var limits := LimitsUpTo(cfg, key, n - 1);
      var b := cfg.budgets[n - 1];
      if Covers(b, key)
      then Merge(limits, Limits(cfg.denyUnknown, b.maxConcurrent, b.requestsPerMinute, b.tokenLimit, b.costLimit))
      else limits
  }

  function LimitsFor(cfg: Config, key: Key): Limits { LimitsUpTo(cfg, key, |cfg.budgets|) }

  datatype Kind = Concurrency | Rate | TokenCap | CostCap

  function Cap(l: Limits, kind: Kind): nat {
    match kind
    case Concurrency => l.maxConcurrent
    case Rate => l.requestsPerMinute
    case TokenCap => l.tokenLimit
    case CostCap => l.costLimit
  }

  function BudgetCap(b: Budget, kind: Kind): nat {
    Cap(Limits(false, b.maxConcurrent, b.requestsPerMinute, b.tokenLimit, b.costLimit), kind)
  }

  function GlobalCap(cfg: Config, key: Key, kind: Kind): nat {
    if IsPrincipalKey(key)
    then Cap(Limits(false, cfg.maxConcurrent, cfg.requestsPerMinute, cfg.tokenLimit, cfg.costLimit), kind)
    else 0
  }

  /** r is the least of the positive caps that apply, and zero when none does. */
  ghost predicate Strictest(cfg: Config, key: Key, kind: Kind, n: nat, r: nat)
    requires n <= |cfg.budgets|
  {
    && (GlobalCap(cfg, key, kind) > 0 ==> 0 < r <= GlobalCap(cfg, key, kind))
    && (forall i :: 0 <= i < n && Covers(cfg.budgets[i], key) && BudgetCap(cfg.budgets[i], kind) > 0
          ==> 0 < r <= BudgetCap(cfg.budgets[i], kind))
    && (r > 0 ==> r == GlobalCap(cfg, key, kind)
                  || exists i :: 0 <= i < n && Covers(cfg.budgets[i], key) && r == BudgetCap(cfg.budgets[i], kind))
  }

  lemma {:induction false} LimitsUpToStrictest(cfg: Config, key: Key, kind: Kind, n: nat)
    requires n <= |cfg.budgets|
    ensures Strictest(cfg, key, kind, n, Cap(LimitsUpTo(cfg, key, n), kind))
    ensures LimitsUpTo(cfg, key, n).denyUnknown == cfg.denyUnknown
  {
    if n > 0 { LimitsUpToStrictest(cfg, key, kind, n - 1); }
  }

  /** The limits of a key are the strictest that the global configuration, for principals, and
      the covering budgets set; a kind that none of them limits is unlimited. */
  lemma {:induction false} LimitsForStrictest(cfg: Config, key: Key, kind: Kind)
    ensures Strictest(cfg, key, kind, |cfg.budgets|, Cap(LimitsFor(cfg, key), kind))
    ensures LimitsFor(cfg, key).denyUnknown == cfg.denyUnknown
  {
    LimitsUpToStrictest(cfg, key, kind, |cfg.budgets|);
  }

  // ---------------------------------------------------------------- reserved amounts

  function Tighten(limit: nat, candidate: nat): nat {
    if candidate > 0 && (limit == 0 || candidate < limit) then candidate else limit
  }

  function TokenLimitOver(cfg: Config, keys: seq<Key>, n: nat): nat
    requires n <= |keys|
  {
    if n == 0 then 0 else Tighten(TokenLimitOver(cfg, keys, n - 1), LimitsFor(cfg, keys[n - 1]).tokenLimit)
  }

  function CostLimitOver(cfg: Config, keys: seq<Key>, n: nat): nat
    requires n <= |keys|
  {
    if n == 0 then 0 else Tighten(CostLimitOver(cfg, keys, n - 1), LimitsFor(cfg, keys[n - 1]).costLimit)
  }

  function Clamp(value: nat, low: nat, high: nat): nat {
    var capped := if high > 0 then Min(value, high) else value;
    if low > 0 then Max(capped, low) else capped
  }

  predicate Adaptive(cfg: Config) { cfg.maxTokens > 0 || cfg.minTokens > 0 || cfg.forecast }

  function BaseTokens(cfg: Config, estimates: map<string, Estimate>, model: string): nat {
    var configured := cfg.tokenReservation;
    var adapted := if Adaptive(cfg) && configured == 0 && model in estimates
       then estimates[model].tokens else configured;
    Clamp(if adapted == 0 then Max(cfg.minTokens, 1) else adapted, cfg.minTokens, cfg.maxTokens)
  }

  function PriceOf(cfg: Config, model: string): Price {
    if model in cfg.prices then cfg.prices[model] else Price(0, 0)
  }

  function BaseCost(cfg: Config, estimates: map<string, Estimate>, model: string): nat {
    var configured := cfg.costReservation;
    var adapted := if Adaptive(cfg) && configured == 0 && model in estimates then estimates[model].cost else configured;
    var p := PriceOf(cfg, model);
    Clamp(if adapted == 0 then SafeMul(BaseTokens(cfg, estimates, model), Max(p.input, p.output)) else adapted,
          cfg.minCost, cfg.maxCost)
  }

  /** What one attempt reserves under the given keys. */
  function Amounts(cfg: Config, estimates: map<string, Estimate>, model: string, keys: seq<Key>): (r: Amount)
    ensures r.tokens >= 0 && r.cost >= 0
  {
    var tokenLimit := TokenLimitOver(cfg, keys, |keys|);
    var costLimit := CostLimitOver(cfg, keys, |keys|);
    Amount(if tokenLimit == 0 then 0 else Min(BaseTokens(cfg, estimates, model), tokenLimit),
           if costLimit == 0 then 0 else Min(BaseCost(cfg, estimates, model), costLimit))
  }

  lemma {:induction false} TokenLimitOverBounds(cfg: Config, keys: seq<Key>, n: nat)
    requires n <= |keys|
    ensures forall i :: 0 <= i < n && LimitsFor(cfg, keys[i]).tokenLimit > 0 ==>
              0 < TokenLimitOver(cfg, keys, n) <= LimitsFor(cfg, keys[i]).tokenLimit
    ensures TokenLimitOver(cfg, keys, n) > 0 ==>
              exists i :: 0 <= i < n && LimitsFor(cfg, keys[i]).tokenLimit == TokenLimitOver(cfg, keys, n)
  {
    if n > 0 { TokenLimitOverBounds(cfg, keys, n - 1); }
  }

  lemma {:induction false} CostLimitOverBounds(cfg: Config, keys: seq<Key>, n: nat)
    requires n <= |keys|
    ensures forall i :: 0 <= i < n && LimitsFor(cfg, keys[i]).costLimit > 0 ==>
              0 < CostLimitOver(cfg, keys, n) <= LimitsFor(cfg, keys[i]).costLimit
    ensures CostLimitOver(cfg, keys, n) > 0 ==>
              exists i :: 0 <= i < n && LimitsFor(cfg, keys[i]).costLimit == CostLimitOver(cfg, keys, n)
  {
    if n > 0 { CostLimitOverBounds(cfg, keys, n - 1); }
  }

  /** An attempt never reserves more tokens or cost than any one of its keys allows in a whole
      window, and reserves none of a kind that no key limits. */
  lemma {:induction false} AmountsWithinLimits(cfg: Config, estimates: map<string, Estimate>, model: string,
                                               keys: seq<Key>)
    ensures forall k :: k in keys && LimitsFor(cfg, k).tokenLimit > 0 ==>
              Amounts(cfg, estimates, model, keys).tokens <= LimitsFor(cfg, k).tokenLimit
    ensures (forall k :: k in keys ==> LimitsFor(cfg, k).tokenLimit == 0) ==>
              Amounts(cfg, estimates, model, keys).tokens == 0
    ensures forall k :: k in keys && LimitsFor(cfg, k).costLimit > 0 ==>
              Amounts(cfg, estimates, model, keys).cost <= LimitsFor(cfg, k).costLimit
    ensures (forall k :: k in keys ==> LimitsFor(cfg, k).costLimit == 0) ==>
              Amounts(cfg, estimates, model, keys).cost == 0
  {
    TokenLimitOverBounds(cfg, keys, |keys|);
    CostLimitOverBounds(cfg, keys, |keys|);
  }

  /** What an attempt asks for before any limit: what is configured, else what the model used
      lately if that is tracked, else something, within the configured bounds. */
  ghost predicate Asks(wish: nat, configured: nat, learned: nat, least: nat, low: nat, high: nat) {
    var wanted := if configured > 0 then configured else if learned > 0 then learned else least;
    && (low <= wanted <= high || (high == 0 && low <= wanted) ==> wish == wanted)
    && (low > 0 && wanted < low ==> wish == low)
    && (high > 0 && wanted > high ==> wish == Max(high, low))
  }

  function Learned(cfg: Config, estimates: map<string, Estimate>, model: string): Estimate {
    if Adaptive(cfg) && model in estimates then estimates[model] else Estimate(0, 0)
  }

  /** An attempt reserves what it asks for, unless one of its keys allows less: then it reserves
      the least that any of them allows. */
  lemma {:induction false} AmountsReserve(cfg: Config, estimates: map<string, Estimate>, model: string, keys: seq<Key>)
    ensures var tokens := BaseTokens(cfg, estimates, model);
      && Asks(tokens, cfg.tokenReservation, Learned(cfg, estimates, model).tokens, Max(cfg.minTokens, 1),
              cfg.minTokens, cfg.maxTokens)
      && Asks(BaseCost(cfg, estimates, model), cfg.costReservation, Learned(cfg, estimates, model).cost,
              SafeMul(tokens, Max(PriceOf(cfg, model).input, PriceOf(cfg, model).output)), cfg.minCost, cfg.maxCost)
    ensures var r := Amounts(cfg, estimates, model, keys);
      (exists k :: k in keys && LimitsFor(cfg, k).tokenLimit > 0) ==>
        && r.tokens <= BaseTokens(cfg, estimates, model)
        && (r.tokens < BaseTokens(cfg, estimates, model) ==>
              exists k :: k in keys && 0 < LimitsFor(cfg, k).tokenLimit == r.tokens)
    ensures var r := Amounts(cfg, estimates, model, keys);
      (exists k :: k in keys && LimitsFor(cfg, k).costLimit > 0) ==>
        && r.cost <= BaseCost(cfg, estimates, model)
        && (r.cost < BaseCost(cfg, estimates, model) ==>
              exists k :: k in keys && 0 < LimitsFor(cfg, k).costLimit == r.cost)
  {
    TokenLimitOverBounds(cfg, keys, |keys|);
    CostLimitOverBounds(cfg, keys, |keys|);
  }

  // ---------------------------------------------------------------- reported usage

  function UsageTotal(u: Reported): nat
    requires MIN_INT64 <= u.input <= MAX_INT64 && MIN_INT64 <= u.output <= MAX_INT64
  {
    if !u.known then 0 else Max(u.total, SafeAdd(Max(u.input, 0), Max(u.output, 0)))
  }

  predicate ReportedInRange(u: Reported) {
    && MIN_INT64 <= u.input <= MAX_INT64 && MIN_INT64 <= u.output <= MAX_INT64
    && MIN_INT64 <= u.total <= MAX_INT64
  }

  /** Cost of a report; tokens that are only in the total are priced in the dearer direction. */
  function UsageCost(cfg: Config, model: string, u: Reported): nat
    requires ReportedInRange(u)
  {
    if !u.known then 0 else
      var p := PriceOf(cfg, model);
      var input, output := Max(u.input, 0), Max(u.output, 0);
      var parts := SafeAdd(input, output);
      var split := Min(SafeMul(input, p.input) + SafeMul(output, p.output), MAX_INT64);
      if UsageTotal(u) > parts
      then Min(split + SafeMul(UsageTotal(u) - parts, Max(p.input, p.output)), MAX_INT64)
      else split
  }

  lemma {:induction false} ProductBeyond(x: nat, y: nat, q: nat)
    requires y > 0 && q == MAX_INT64 / y
    ensures x <= q <==> x * y <= MAX_INT64
  {
    var rest := MAX_INT64 % y;
    assert MAX_INT64 == q * y + rest && rest < y;
    if x <= q {
      assert x * y <= q * y;
    } else {
      assert x * y >= (q + 1) * y == q * y + y;
    }
  }

  lemma {:induction false} SafeMulSaturates(x: nat, y: nat)
    ensures x * y >= 0 && SafeMul(x, y) == Min(x * y, MAX_INT64)
  {
    if y == 0 {
      assert x * y == 0;
    } else {
      ProductBeyond(x, y, MAX_INT64 / y);
      SaturatesFrom(x, y, x * y, MAX_INT64 / y);
    }
  }

  lemma {:induction false} SaturatesFrom(x: nat, y: nat, product: int, q: nat)
    requires y > 0 && q == MAX_INT64 / y && product == x * y && (x <= q <==> product <= MAX_INT64)
    ensures product >= 0 && SafeMul(x, y) == Min(product, MAX_INT64)
  {
    if x == 0 { assert product == 0; }
  }

  /** What a report is charged: the larger of the total and input plus output, at the price of
      each part, with tokens that are only in the total at the dearer price; all of it
      saturating at the end only. */
  lemma {:induction false} ReportedCharge(cfg: Config, model: string, u: Reported)
    requires ReportedInRange(u) && u.known
    ensures var p, input, output := PriceOf(cfg, model), Max(u.input, 0), Max(u.output, 0);
      && UsageTotal(u) == Min(Max(u.total, input + output), MAX_INT64)
      && UsageCost(cfg, model, u)
         == Min(input * p.input + output * p.output + Max(u.total - input - output, 0) * Max(p.input, p.output),
                MAX_INT64)
  {
    var p, input, output := PriceOf(cfg, model), Max(u.input, 0), Max(u.output, 0);
    SafeMulSaturates(input, p.input);
    SafeMulSaturates(output, p.output);
    SafeMulSaturates(Max(u.total - input - output, 0), Max(p.input, p.output));
    assert 0 * Max(p.input, p.output) == 0;
  }

  lemma {:induction false} SafeMulPositive(x: nat, y: nat)
    requires x > 0 && y > 0
    ensures SafeMul(x, y) > 0
  {
  }

  /** Reported usage costs something exactly when some part of it is priced; tokens that are
      only in the total fall under either price. */
  lemma {:induction false} ReportedIsNeverFree(cfg: Config, model: string, u: Reported)
    requires ReportedInRange(u)
    ensures UsageCost(cfg, model, u) > 0 <==> u.known && Priced(PriceOf(cfg, model), u)
  {
    var p := PriceOf(cfg, model);
    if u.input > 0 && p.input > 0 { SafeMulPositive(u.input, p.input); }
    if u.output > 0 && p.output > 0 { SafeMulPositive(u.output, p.output); }
    var parts := SafeAdd(Max(u.input, 0), Max(u.output, 0));
    if u.known && UsageTotal(u) > parts && Max(p.input, p.output) > 0 {
      SafeMulPositive(UsageTotal(u) - parts, Max(p.input, p.output));
    }
  }

  /** Some part of the report falls under a price: input, output, or a total beyond the two. */
  predicate Priced(p: Price, u: Reported) {
    || (u.input > 0 && p.input > 0)
    || (u.output > 0 && p.output > 0)
    || (u.total > SafeAdd(Max(u.input, 0), Max(u.output, 0)) && (p.input > 0 || p.output > 0))
  }

  function NextEstimate(estimates: map<string, Estimate>, model: string, tokens: nat,
                        cost: nat): map<string, Estimate> {
    var e := if model in estimates then estimates[model] else Estimate(0, 0);
    estimates[model := Estimate(Blend(e.tokens, tokens), Blend(e.cost, cost))]
  }

  function Blend(previous: nat, sample: nat): nat {
    if previous == 0 then sample else Min(SafeMul(previous, 3) + sample, MAX_INT64) / 4
  }

  /** The estimate follows the samples: the first one is taken over, each later one counts for a
      quarter, rounded down, and the estimate never leaves the range between the two. */
  lemma {:induction false} EstimateFollows(previous: nat, sample: nat)
    requires previous <= MAX_INT64 && sample <= MAX_INT64
    ensures previous == 0 ==> Blend(previous, sample) == sample
    ensures previous > 0 && 3 * previous + sample <= MAX_INT64 ==>
              && 4 * Blend(previous, sample) <= 3 * previous + sample < 4 * Blend(previous, sample) + 4
              && Min(previous, sample) <= Blend(previous, sample) <= Max(previous, sample)
    ensures Blend(previous, sample) <= MAX_INT64
  {
    SafeMulSaturates(previous, 3);
  }

  // ---------------------------------------------------------------- refusal

  datatype Verdict = Fits | UnknownUsage | ConcurrentLimit | RateLimit | TokenLimit | CostLimit

  /** The totals a request would bring a key to, against the key's limits. */
  function Judge(l: Limits, unknown: int, active: int, requests: int, tokens: int, cost: int): Verdict {
    if l.denyUnknown && unknown > 0 then UnknownUsage
    else if l.maxConcurrent > 0 && active > l.maxConcurrent then ConcurrentLimit
    else if l.requestsPerMinute > 0 && requests > l.requestsPerMinute then RateLimit
    else if l.tokenLimit > 0 && tokens > l.tokenLimit then TokenLimit
    else if l.costLimit > 0 && cost > l.costLimit then CostLimit
    else Fits
  }

  ghost function HoldsKey(key: Key): Attempt -> int {
    a => if Open(a) && key in a.keys then 1 else 0
  }

  ghost function ActiveOf(key: Key): Reservation -> int {
    (r: Reservation) => Sum(r.attempts, HoldsKey(key))
  }

  /** Open attempts charged to a key, in any window. */
  ghost function Active(rs: map<string, Reservation>, key: Key): int {
    Sum(rs, ActiveOf(key))
  }

  /** One more attempt on a key, next to the attempts of the other reservations. */
  ghost function JudgeAttempt(cfg: Config, b: Book, id: string, window: int, key: Key, amount: Amount): Verdict {
    var u := At(b.usage, Slot(key, window));
    Judge(LimitsFor(cfg, key), u.unknown, Active(b.reservations - {id}, key) + 1, u.requests + 1,
          u.tokens + u.reservedTokens + amount.tokens, u.cost + u.reservedCost + amount.cost)
  }

  /** First refusal over the keys, in order; nothing is refused outside enforce mode. */
  ghost function JudgeAttempts(cfg: Config, b: Book, id: string, window: int, keys: seq<Key>, amount: Amount,
                               n: nat): Verdict
    requires n <= |keys|
  {
    if n == 0 || !cfg.enforce then Fits else
      var earlier := JudgeAttempts(cfg, b, id, window, keys, amount, n - 1);
      if earlier != Fits then earlier else JudgeAttempt(cfg, b, id, window, keys[n - 1], amount)
  }

  ghost function OpenIn(window: int): Attempt -> int {
    a => if Open(a) && a.window == window then 1 else 0
  }

  /** Open attempts of a reservation that were reserved in the given window. */
  ghost function OwnIn(r: Reservation, window: int): int {
    Sum(r.attempts, OpenIn(window))
  }

  /** A binding is judged on the window of the moment; the reservation's own share of a
      key that stays is still in the book, so it is counted twice. */
  ghost function JudgeBinding(cfg: Config, b: Book, id: string, window: int, key: Key, amount: Amount): Verdict
    requires id in b.reservations
  {
    var u := At(b.usage, Slot(key, window));
    var own := OwnIn(b.reservations[id], window);
    Judge(LimitsFor(cfg, key), u.unknown, Active(b.reservations - {id}, key) + own, u.requests + own,
          u.tokens + u.reservedTokens + own * amount.tokens, u.cost + u.reservedCost + own * amount.cost)
  }

  ghost function JudgeBindings(cfg: Config, b: Book, id: string, window: int, keys: seq<Key>, amount: Amount,
                               n: nat): Verdict
    requires n <= |keys| && id in b.reservations
  {
    if n == 0 || !cfg.enforce then Fits else
      var earlier := JudgeBindings(cfg, b, id, window, keys, amount, n - 1);
      if earlier != Fits then earlier else JudgeBinding(cfg, b, id, window, keys[n - 1], amount)
  }

  /** An attempt is let through exactly when every key has room for it. */
  lemma {:induction false} JudgeAttemptsFits(cfg: Config, b: Book, id: string, window: int, keys: seq<Key>,
                                             amount: Amount, n: nat)
    requires n <= |keys| && cfg.enforce
    ensures JudgeAttempts(cfg, b, id, window, keys, amount, n) == Fits
       <==> forall i :: 0 <= i < n ==> JudgeAttempt(cfg, b, id, window, keys[i], amount) == Fits
  {
    if n > 0 { JudgeAttemptsFits(cfg, b, id, window, keys, amount, n - 1); }
  }

  lemma {:induction false} JudgeBindingsFits(cfg: Config, b: Book, id: string, window: int, keys: seq<Key>,
                                             amount: Amount, n: nat)
    requires n <= |keys| && cfg.enforce && id in b.reservations
    ensures JudgeBindings(cfg, b, id, window, keys, amount, n) == Fits
       <==> forall i :: 0 <= i < n ==> JudgeBinding(cfg, b, id, window, keys[i], amount) == Fits
  {
    if n > 0 { JudgeBindingsFits(cfg, b, id, window, keys, amount, n - 1); }
  }
}
