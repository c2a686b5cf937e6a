/** When the manager refuses, and why: as arithmetic over the book, and over the ledger by the
    clock. */
module GovernanceRefusals {
  import opened MapSums
  import opened GovernanceBook
  import opened GovernancePolicy
  import opened Governance
  import opened GovernanceReplay
  import opened GovernanceBounds
  import opened GovernanceTally
  import Glob
  import Options

  /** What is asked of a key: so many attempts more, with so many tokens and so much cost. */
  datatype Demand = Demand(attempts: int, tokens: int, cost: int)

  /** The demand would bring the key beyond the limit that the verdict names. */
  ghost predicate Exceeds(cfg: Config, b: Book, id: string, window: int, k: Key, d: Demand, v: Verdict) {
    var l, u := LimitsFor(cfg, k), At(b.usage, Slot(k, window));
    match v
    case Fits => false
    case UnknownUsage => cfg.denyUnknown && u.unknown > 0
    case ConcurrentLimit => l.maxConcurrent > 0 && Active(b.reservations - {id}, k) + d.attempts > l.maxConcurrent
    case RateLimit => l.requestsPerMinute > 0 && u.requests + d.attempts > l.requestsPerMinute
    case TokenLimit => l.tokenLimit > 0 && u.tokens + u.reservedTokens + d.tokens > l.tokenLimit
    case CostLimit => l.costLimit > 0 && u.cost + u.reservedCost + d.cost > l.costLimit
  }

  function Rank(v: Verdict): nat {
    match v
    case Fits => 0
    case UnknownUsage => 1
    case ConcurrentLimit => 2
    case RateLimit => 3
    case TokenLimit => 4
    case CostLimit => 5
  }

  /** The verdict names the first limit of the key that is exceeded. */
  ghost predicate Blames(cfg: Config, b: Book, id: string, window: int, k: Key, d: Demand, v: Verdict) {
    && Exceeds(cfg, b, id, window, k, d, v)
    && forall w :: Rank(w) < Rank(v) ==> !Exceeds(cfg, b, id, window, k, d, w)
  }

  ghost predicate HasRoom(cfg: Config, b: Book, id: string, window: int, k: Key, d: Demand) {
    forall v :: !Exceeds(cfg, b, id, window, k, d, v)
  }

  /** The verdict is that of the first key without room. */
  ghost predicate FirstBlamed(cfg: Config, b: Book, id: string, window: int, keys: seq<Key>, n: nat, d: Demand,
                              v: Verdict)
    requires n <= |keys|
  {
    exists i :: 0 <= i < n && Blames(cfg, b, id, window, keys[i], d, v)
                && forall j :: 0 <= j < i ==> HasRoom(cfg, b, id, window, keys[j], d)
  }

  function One(amount: Amount): Demand { Demand(1, amount.tokens, amount.cost) }

  function Several(n: int, amount: Amount): Demand { Demand(n, n * amount.tokens, n * amount.cost) }

  lemma {:induction false} JudgeBlames(cfg: Config, b: Book, id: string, window: int, k: Key, d: Demand, v: Verdict)
    ensures var u := At(b.usage, Slot(k, window));
      Judge(LimitsFor(cfg, k), u.unknown, Active(b.reservations - {id}, k) + d.attempts, u.requests + d.attempts,
            u.tokens + u.reservedTokens + d.tokens, u.cost + u.reservedCost + d.cost) == v
      <==> if v == Fits then HasRoom(cfg, b, id, window, k, d) else Blames(cfg, b, id, window, k, d, v)
  {
    LimitsForStrictest(cfg, k, Concurrency);
    var u := At(b.usage, Slot(k, window));
    var w := Judge(LimitsFor(cfg, k), u.unknown, Active(b.reservations - {id}, k) + d.attempts,
                   u.requests + d.attempts, u.tokens + u.reservedTokens + d.tokens, u.cost + u.reservedCost + d.cost);
    if w != Fits { BlamesOne(cfg, b, id, window, k, d, w, v); }
  }

  /** A key has at most one first limit that is exceeded. */
  lemma {:induction false} BlamesOne(cfg: Config, b: Book, id: string, window: int, k: Key, d: Demand, w: Verdict,
                                     v: Verdict)
    requires Blames(cfg, b, id, window, k, d, w)
    ensures !HasRoom(cfg, b, id, window, k, d)
    ensures v != Fits && v != w ==> !Blames(cfg, b, id, window, k, d, v)
  {
    assert Rank(v) == Rank(w) ==> v == w;
  }

  lemma {:induction false} AttemptBlamed(cfg: Config, b: Book, id: string, window: int, k: Key, amount: Amount,
                                         v: Verdict)
    ensures JudgeAttempt(cfg, b, id, window, k, amount) == v
       <==> if v == Fits then HasRoom(cfg, b, id, window, k, One(amount))
            else Blames(cfg, b, id, window, k, One(amount), v)
  {
    JudgeBlames(cfg, b, id, window, k, One(amount), v);
  }

  lemma {:induction false} BindingBlamed(cfg: Config, b: Book, id: string, window: int, k: Key, amount: Amount,
                                         v: Verdict)
    requires id in b.reservations
    ensures JudgeBinding(cfg, b, id, window, k, amount) == v
       <==> if v == Fits then HasRoom(cfg, b, id, window, k, Several(OwnIn(b.reservations[id], window), amount))
            else Blames(cfg, b, id, window, k, Several(OwnIn(b.reservations[id], window), amount), v)
  {
    JudgeBlames(cfg, b, id, window, k, Several(OwnIn(b.reservations[id], window), amount), v);
  }

  /** One more key: it is blamed only if all before it have room. */
  lemma {:induction false} FirstBlamedNext(cfg: Config, b: Book, id: string, window: int, keys: seq<Key>, n: nat,
                                           d: Demand, v: Verdict)
    requires n < |keys|
    ensures FirstBlamed(cfg, b, id, window, keys, n + 1, d, v) <==>
      || FirstBlamed(cfg, b, id, window, keys, n, d, v)
      || (Blames(cfg, b, id, window, keys[n], d, v)
          && forall j :: 0 <= j < n ==> HasRoom(cfg, b, id, window, keys[j], d))
  {}

  /** Somebody is blamed exactly when not all keys have room. */
  lemma {:induction false} RoomOrBlame(cfg: Config, b: Book, id: string, window: int, keys: seq<Key>, n: nat,
                                       d: Demand, v: Verdict)
    requires n <= |keys| && FirstBlamed(cfg, b, id, window, keys, n, d, v)
    ensures v != Fits && !(forall j :: 0 <= j < n ==> HasRoom(cfg, b, id, window, keys[j], d))
  {
    var i :| 0 <= i < n && Blames(cfg, b, id, window, keys[i], d, v);
    assert !HasRoom(cfg, b, id, window, keys[i], d);
  }

  /** Two refusals over the same keys blame alike. */
  lemma {:induction false} BlamedOnce(cfg: Config, b: Book, id: string, window: int, keys: seq<Key>, n: nat,
                                      d: Demand, v: Verdict, w: Verdict)
    requires n <= |keys|
    requires FirstBlamed(cfg, b, id, window, keys, n, d, v) && FirstBlamed(cfg, b, id, window, keys, n, d, w)
    ensures v == w
  {
    var i :| 0 <= i < n && Blames(cfg, b, id, window, keys[i], d, v)
             && forall j :: 0 <= j < i ==> HasRoom(cfg, b, id, window, keys[j], d);
    var m :| 0 <= m < n && Blames(cfg, b, id, window, keys[m], d, w)
             && forall j :: 0 <= j < m ==> HasRoom(cfg, b, id, window, keys[j], d);
    if i == m { BlamesOne(cfg, b, id, window, keys[i], d, v, w); }
  }

  lemma {:induction false} AttemptsBlamed(cfg: Config, b: Book, id: string, window: int, keys: seq<Key>,
                                          amount: Amount, n: nat)
    requires n <= |keys| && cfg.enforce
    ensures var v := JudgeAttempts(cfg, b, id, window, keys, amount, n);
      if v == Fits then forall j :: 0 <= j < n ==> HasRoom(cfg, b, id, window, keys[j], One(amount))
      else FirstBlamed(cfg, b, id, window, keys, n, One(amount), v)
  {
    if n > 0 {
      AttemptsBlamed(cfg, b, id, window, keys, amount, n - 1);
      var v := JudgeAttempts(cfg, b, id, window, keys, amount, n);
      AttemptBlamed(cfg, b, id, window, keys[n - 1], amount, JudgeAttempt(cfg, b, id, window, keys[n - 1], amount));
      FirstBlamedNext(cfg, b, id, window, keys, n - 1, One(amount), v);
    }
  }

  lemma {:induction false} BindingsBlamed(cfg: Config, b: Book, id: string, window: int, keys: seq<Key>,
                                          amount: Amount, n: nat)
    requires n <= |keys| && cfg.enforce && id in b.reservations
    ensures var v, d := JudgeBindings(cfg, b, id, window, keys, amount, n),
                        Several(OwnIn(b.reservations[id], window), amount);
      if v == Fits then forall j :: 0 <= j < n ==> HasRoom(cfg, b, id, window, keys[j], d)
      else FirstBlamed(cfg, b, id, window, keys, n, d, v)
  {
    if n > 0 {
      BindingsBlamed(cfg, b, id, window, keys, amount, n - 1);
      var v, d := JudgeBindings(cfg, b, id, window, keys, amount, n), Several(OwnIn(b.reservations[id], window), amount);
      BindingBlamed(cfg, b, id, window, keys[n - 1], amount, JudgeBinding(cfg, b, id, window, keys[n - 1], amount));
      FirstBlamedNext(cfg, b, id, window, keys, n - 1, d, v);
    }
  }

  /** The verdict over the keys, exactly. */
  lemma {:induction false} VerdictIff(cfg: Config, b: Book, id: string, window: int, keys: seq<Key>, d: Demand,
                                      given: Verdict, v: Verdict)
    requires if given == Fits then forall j :: 0 <= j < |keys| ==> HasRoom(cfg, b, id, window, keys[j], d)
             else FirstBlamed(cfg, b, id, window, keys, |keys|, d, given)
    ensures v != Fits ==> (given == v <==> FirstBlamed(cfg, b, id, window, keys, |keys|, d, v))
  {
    if v != Fits && FirstBlamed(cfg, b, id, window, keys, |keys|, d, v) {
      RoomOrBlame(cfg, b, id, window, keys, |keys|, d, v);
      if given != Fits { BlamedOnce(cfg, b, id, window, keys, |keys|, d, given, v); }
    }
  }

  // ---------------------------------------------------------------- operations

  /** An admission is refused for a limit exactly when nothing else stands in its way and some
      key has no room for one more attempt; it is told the first exceeded limit of the first
      such key. */
  lemma {:induction false} AdmitRefusedIff(g: Gov, rawId: string, raw: Admission, now: nat, healthy: bool, ok: bool,
                                           v: Verdict)
    requires v != Fits
    ensures var id, adm := Glob.Trim(rawId), Normalize(raw);
      var keys := BudgetKeys(g.config, adm);
      AdmitStep(g, rawId, raw, now, healthy, ok).1 == Refused(v) <==>
        && g.config.enforce && 0 < |id| <= 128 && id !in g.book.reservations && g.journalUp && healthy
        && (adm.tenant == "" ==> forall i :: 0 <= i < |g.config.budgets| ==> !g.config.budgets[i].scope.Tenant?)
        && FirstBlamed(g.config, g.book, id, now / 60 * 60, keys, |keys|,
                       One(Amounts(g.config, g.estimates, adm.model, keys)), v)
  {
    var id, adm := Glob.Trim(rawId), Normalize(raw);
    var keys := BudgetKeys(g.config, adm);
    var amount := Amounts(g.config, g.estimates, adm.model, keys);
    if g.config.enforce {
      AttemptsBlamed(g.config, g.book, id, WindowOf(now), keys, amount, |keys|);
      VerdictIff(g.config, g.book, id, WindowOf(now), keys, One(amount),
                 JudgeAttempts(g.config, g.book, id, WindowOf(now), keys, amount, |keys|), v);
    }
  }

  /** The same for one more attempt of a reservation. */
  lemma {:induction false} BeginRefusedIff(g: Gov, id: string, raw: string, now: nat, ok: bool, v: Verdict)
    requires v != Fits
    ensures var i := Glob.Trim(raw);
      BeginStep(g, id, raw, now, ok).1 == Refused(v) <==>
        && g.config.enforce && 0 < |i| <= 128 && id in g.book.reservations
        && i !in g.book.reservations[id].attempts
        && var r := g.book.reservations[id];
           FirstBlamed(g.config, g.book, id, now / 60 * 60, r.keys, |r.keys|,
                       One(Amounts(g.config, g.estimates, r.model, r.keys)), v)
  {
    if id in g.book.reservations && g.config.enforce {
      var r := g.book.reservations[id];
      var amount := Amounts(g.config, g.estimates, r.model, r.keys);
      AttemptsBlamed(g.config, g.book, id, WindowOf(now), r.keys, amount, |r.keys|);
      VerdictIff(g.config, g.book, id, WindowOf(now), r.keys, One(amount),
                 JudgeAttempts(g.config, g.book, id, WindowOf(now), r.keys, amount, |r.keys|), v);
    }
  }

  /** A binding is refused exactly when some key of the new upstream has no room for the attempts
      of the current minute that it would move there. */
  lemma {:induction false} BindRefusedIff(g: Gov, id: string, raw: string, now: nat, ok: bool, v: Verdict)
    requires v != Fits
    ensures var upstream := Glob.Trim(raw);
      BindStep(g, id, raw, now, ok).1 == Refused(v) <==>
        && g.config.enforce && 0 < |upstream| <= 128 && id in g.book.reservations
        && g.book.reservations[id].upstream != upstream
        && var keys := BindingKeys(g, id, raw);
           FirstBlamed(g.config, g.book, id, now / 60 * 60, keys, |keys|,
                       Several(OwnIn(g.book.reservations[id], now / 60 * 60), BindingAmount(g, id, raw)), v)
  {
    if id in g.book.reservations && g.config.enforce {
      var keys, amount := BindingKeys(g, id, raw), BindingAmount(g, id, raw);
      BindingsBlamed(g.config, g.book, id, WindowOf(now), keys, amount, |keys|);
      VerdictIff(g.config, g.book, id, WindowOf(now), keys,
                 Several(OwnIn(g.book.reservations[id], WindowOf(now)), amount),
                 JudgeBindings(g.config, g.book, id, WindowOf(now), keys, amount, |keys|), v);
    }
  }

  // ---------------------------------------------------------------- by the clock

  /** In enforce mode the limits are exceeded by what the ledger says, and by nothing else: the
      rate by the attempts of this minute of the clock, tokens and cost by what was settled in
      it and what open attempts hold. */
  lemma {:induction false} ExceedsByTheClock(cfg: Config, gs: seq<Gov>, ops: seq<Op>, n: nat, id: string, k: Key,
                                             minute: int, d: Demand)
    requires IsSteadyRun(cfg, gs, ops) && n <= |ops| && k.scope != Upstream
    ensures var g, s, l := gs[n], Slot(k, 60 * minute), LimitsFor(cfg, k);
      && (Exceeds(cfg, g.book, id, 60 * minute, k, d, RateLimit) <==>
            l.requestsPerMinute > 0
            && OpenedBetween(g.ledger, k, 60 * minute, 60 * minute + 60) + d.attempts > l.requestsPerMinute)
      && (Exceeds(cfg, g.book, id, 60 * minute, k, d, UnknownUsage) <==>
            cfg.denyUnknown && UnknownUses(g.ledger, s) > 0)
      && (Exceeds(cfg, g.book, id, 60 * minute, k, d, TokenLimit) <==>
            l.tokenLimit > 0
            && TokensUsed(g.ledger, s) + TotalLoad(g.book.reservations, s, Tokens) + d.tokens > l.tokenLimit)
      && (Exceeds(cfg, g.book, id, 60 * minute, k, d, CostLimit) <==>
            l.costLimit > 0
            && CostUsed(g.ledger, s) + TotalLoad(g.book.reservations, s, Cost) + d.cost > l.costLimit)
  {
    RowByTheClock(cfg, gs, ops, n, k, minute);
    HeldByOpen(cfg, gs, ops, n, Slot(k, 60 * minute));
  }

  lemma {:induction false} HeldByOpen(cfg: Config, gs: seq<Gov>, ops: seq<Op>, n: nat, s: Slot)
    requires IsSteadyRun(cfg, gs, ops) && n <= |ops|
    ensures At(gs[n].book.usage, s).reservedTokens == TotalLoad(gs[n].book.reservations, s, Tokens)
    ensures At(gs[n].book.usage, s).reservedCost == TotalLoad(gs[n].book.reservations, s, Cost)
  {
    RunSteady(cfg, gs, ops, n);
    assert SlotConserved(gs[n].book, s);
  }
}
