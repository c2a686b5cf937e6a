/** The usage rows as sums over the ledger: requests are the attempts that were opened, tokens,
    cost and unknown usage what was settled.  In enforce mode the rate holds by the clock. */
module GovernanceTally {
  import opened MapSums
  import opened GovernanceBook
  import opened GovernancePolicy
  import opened JournalLog
  import opened Governance
  import opened GovernanceConservation
  import opened GovernanceReplay
  import opened GovernanceBounds
  import Glob
  import Options

  // ---------------------------------------------------------------- sums over the ledger

  /** The entry opens an attempt that is charged to the key. */
  predicate Opens(e: Event, k: Key) { (e.Reserved? || e.AttemptReserved?) && k in e.keys }

  /** Attempts opened on a key and window. */
  function Opened(log: seq<Item<Event>>, s: Slot): nat {
    if log == [] then 0 else
      var e := log[|log| - 1].payload;
      Opened(log[..|log| - 1], s) + if Opens(e, s.key) && e.window == s.window then 1 else 0
  }

  /** The keys an entity was last given. */
  function KeysOn(log: seq<Item<Event>>, id: string): seq<Key> {
    if log == [] then [] else
      var last := log[|log| - 1];
      if last.entity == id && (last.payload.Reserved? || last.payload.Bound?) then last.payload.keys
      else KeysOn(log[..|log| - 1], id)
  }

  /** The last entry settles an attempt that is charged to the key and window. */
  predicate Settles(log: seq<Item<Event>>, s: Slot) {
    log != [] &&
      var past, last := log[..|log| - 1], log[|log| - 1];
      last.payload.UsageRecorded? && last.payload.window == s.window && s.key in KeysOn(past, last.entity)
  }

  function TokensUsed(log: seq<Item<Event>>, s: Slot): nat {
    if log == [] then 0 else
      TokensUsed(log[..|log| - 1], s)
      + if Settles(log, s) && log[|log| - 1].payload.known then log[|log| - 1].payload.tokens else 0
  }

  function CostUsed(log: seq<Item<Event>>, s: Slot): nat {
    if log == [] then 0 else
      CostUsed(log[..|log| - 1], s)
      + if Settles(log, s) && log[|log| - 1].payload.known then log[|log| - 1].payload.cost else 0
  }

  function UnknownUses(log: seq<Item<Event>>, s: Slot): nat {
    if log == [] then 0 else
      UnknownUses(log[..|log| - 1], s) + if Settles(log, s) && !log[|log| - 1].payload.known then 1 else 0
  }

  /** The attempts of the entity that are open in the window. */
  ghost function OpenAttempts(log: seq<Item<Event>>, id: string, window: int): int {
    if Replay(log).Some? && id in Replay(log).value.book.reservations
    then OwnIn(Replay(log).value.book.reservations[id], window) else 0
  }

  /** As many as n if the key is among the keys. */
  function If(keys: seq<Key>, k: Key, n: int): int { if k in keys then n else 0 }

  /** Attempts that bindings brought to a key and window, less those they took away. */
  ghost function Moved(log: seq<Item<Event>>, s: Slot): int {
    if log == [] then 0 else
      var past, last := log[..|log| - 1], log[|log| - 1];
      var n := OpenAttempts(past, last.entity, s.window);
      Moved(past, s) + if last.payload.Bound?
                       then If(last.payload.keys, s.key, n) - If(KeysOn(past, last.entity), s.key, n)
                       else 0
  }

  /** The row of a slot says what the ledger adds up to. */
  ghost predicate Tallies(log: seq<Item<Event>>, u: Usage, s: Slot) {
    && u.requests == Opened(log, s) + Moved(log, s)
    && u.tokens == TokensUsed(log, s) && u.cost == CostUsed(log, s) && u.unknown == UnknownUses(log, s)
  }

  // ---------------------------------------------------------------- entries where they belong

  /** The entry is what the manager writes when its book is b. */
  predicate Exact(b: Book, item: Item<Event>) {
    var id := item.entity;
    match item.payload
    case Reserved(principal, _, _, _, attemptId, window, amount, keys) =>
      && id !in b.reservations && principal != "" && KeysFor(keys, principal) && attemptId != ""
      && amount.tokens >= 0 && amount.cost >= 0 && item.time >= 0 && window == WindowOf(item.time)
    case AttemptReserved(_, attemptId, window, amount, keys) =>
      && id in b.reservations && attemptId !in b.reservations[id].attempts && attemptId != ""
      && keys == b.reservations[id].keys
      && amount.tokens >= 0 && amount.cost >= 0 && item.time >= 0 && window == WindowOf(item.time)
    case Bound(_, upstream, keys, amounts) =>
      && id in b.reservations && upstream != "" && KeysFor(keys, b.reservations[id].principal)
      && forall i :: i in amounts ==> amounts[i].tokens >= 0 && amounts[i].cost >= 0
    case UsageRecorded(settlementId, principal, _, attemptId, window, _, _, _) =>
      && id in b.reservations && principal == b.reservations[id].principal
      && settlementId == attemptId && attemptId != "" && attemptId in b.reservations[id].attempts
      && Open(b.reservations[id].attempts[attemptId]) && attemptId !in b.reservations[id].settlements
      && window == b.reservations[id].attempts[attemptId].window
    case _ => true
  }

  /** Every entry was what the manager writes in the state the entries before it lead to. */
  ghost predicate Told(log: seq<Item<Event>>) {
    log == [] ||
      var past := log[..|log| - 1];
      && Told(past) && Replay(past).Some? && Conserved(Replay(past).value.book)
      && Exact(Replay(past).value.book, log[|log| - 1])
  }

  /** The replayed reservations have the keys they were last given. */
  ghost predicate KeysKnown(log: seq<Item<Event>>, b: Book) {
    forall id :: id in b.reservations ==> b.reservations[id].keys == KeysOn(log, id)
  }

  lemma {:induction false} ReplayLast(log: seq<Item<Event>>)
    requires log != [] && Replay(log).Some?
    ensures Replay(log[..|log| - 1]).Some?
    ensures ReplayEvent(Replay(log[..|log| - 1]).value, log[|log| - 1].entity, log[|log| - 1].payload) == Replay(log)
  {}

  lemma {:induction false} RunKeysKnown(log: seq<Item<Event>>)
    requires Replay(log).Some?
    ensures KeysKnown(log, Replay(log).value.book)
  {
    if log != [] {
      ReplayLast(log);
      RunKeysKnown(log[..|log| - 1]);
    }
  }

  // ---------------------------------------------------------------- one entry

  /** In a valid reservation the load of a slot is that of the attempts open in its window. */
  lemma {:induction false} LoadIsOwn(r: Reservation, s: Slot)
    requires forall i :: i in r.attempts && Open(r.attempts[i]) ==> r.attempts[i].keys == r.keys
    ensures Load(r, s, Requests) == If(r.keys, s.key, OwnIn(r, s.window))
  {
    if s.key in r.keys {
      SumSame(r.attempts, AttemptLoad(s, Requests), r.attempts, OpenIn(s.window));
    } else {
      SumZero(r.attempts, AttemptLoad(s, Requests));
    }
  }

  lemma {:induction false} ReboundOwn(r: Reservation, upstream: string, keys: seq<Key>, amounts: map<string, Amount>,
                                      window: int)
    ensures OwnIn(ReboundReservation(r, upstream, keys, amounts), window) == OwnIn(r, window)
  {
    var after := ReboundReservation(r, upstream, keys, amounts);
    SumSame(after.attempts, OpenIn(window), r.attempts, OpenIn(window));
  }

  /** A binding moves the open attempts of a window from the keys it loses to those it gains. */
  lemma {:induction false} RebindMoves(b: Book, id: string, upstream: string, keys: seq<Key>,
                                       amounts: map<string, Amount>, s: Slot)
    requires id in b.reservations && ReservationValid(b.reservations[id])
    ensures var r := b.reservations[id];
      At(Rebind(b, id, upstream, keys, amounts).usage, s).requests
      == At(b.usage, s).requests + If(keys, s.key, OwnIn(r, s.window)) - If(r.keys, s.key, OwnIn(r, s.window))
  {
    var r := b.reservations[id];
    var after := ReboundReservation(r, upstream, keys, amounts);
    RechargeAt(b.usage, r, after, s);
    OpenKeys(r);
    LoadIsOwn(r, s);
    LoadIsOwn(after, s);
    ReboundOwn(r, upstream, keys, amounts, s.window);
  }

  lemma {:induction false} OpenKeys(r: Reservation)
    requires ReservationValid(r)
    ensures forall i :: i in r.attempts && Open(r.attempts[i]) ==> r.attempts[i].keys == r.keys
  {
    forall i | i in r.attempts ensures AttemptValid(r.attempts[i], r) {}
  }

  lemma {:induction false} RebindSpares(b: Book, id: string, upstream: string, keys: seq<Key>,
                                        amounts: map<string, Amount>, s: Slot)
    requires id in b.reservations
    ensures var u, v := At(Rebind(b, id, upstream, keys, amounts).usage, s), At(b.usage, s);
      u.tokens == v.tokens && u.cost == v.cost && u.unknown == v.unknown
  {
    RechargeAt(b.usage, b.reservations[id], ReboundReservation(b.reservations[id], upstream, keys, amounts), s);
  }

  lemma {:induction false} TallyOpen(p: Replica, log: seq<Item<Event>>, s: Slot)
    requires log != [] && Replay(log[..|log| - 1]) == Options.Some(p) && Exact(p.book, log[|log| - 1])
    requires Replay(log).Some? && (log[|log| - 1].payload.Reserved? || log[|log| - 1].payload.AttemptReserved?)
    requires Tallies(log[..|log| - 1], At(p.book.usage, s), s)
    ensures Tallies(log, At(Replay(log).value.book.usage, s), s)
  {
    var e := log[|log| - 1].payload;
    ReplayLast(log);
    ChargeAt(p.book.usage, NewAttempt(e.window, e.amount, e.keys), s);
  }

  lemma {:induction false} BoundUsage(p: Replica, id: string, e: Event)
    requires e.Bound? && ReplayEvent(p, id, e).Some?
    ensures id in p.book.reservations
    ensures ReplayEvent(p, id, e).value.book.usage == Rebind(p.book, id, e.upstream, e.keys, e.amounts).usage
  {}

  /** What a binding adds to the sums. */
  lemma {:induction false} BoundTotals(log: seq<Item<Event>>, s: Slot, r: Reservation)
    requires log != [] && log[|log| - 1].payload.Bound?
    requires var past, id := log[..|log| - 1], log[|log| - 1].entity;
      && Replay(past).Some? && id in Replay(past).value.book.reservations
      && Replay(past).value.book.reservations[id] == r && r.keys == KeysOn(past, id)
    ensures var past, own := log[..|log| - 1], OwnIn(r, s.window);
      && Moved(log, s) == Moved(past, s) + If(log[|log| - 1].payload.keys, s.key, own) - If(r.keys, s.key, own)
      && Opened(log, s) == Opened(past, s) && TokensUsed(log, s) == TokensUsed(past, s)
      && CostUsed(log, s) == CostUsed(past, s) && UnknownUses(log, s) == UnknownUses(past, s)
  {}

  lemma {:induction false} TallyBound(p: Replica, log: seq<Item<Event>>, s: Slot)
    requires log != [] && Replay(log[..|log| - 1]) == Options.Some(p)
    requires Conserved(p.book) && KeysKnown(log[..|log| - 1], p.book)
    requires Replay(log).Some? && log[|log| - 1].payload.Bound?
    requires Tallies(log[..|log| - 1], At(p.book.usage, s), s)
    ensures Tallies(log, At(Replay(log).value.book.usage, s), s)
  {
    var id, e := log[|log| - 1].entity, log[|log| - 1].payload;
    ReplayLast(log);
    BoundUsage(p, id, e);
    BoundTotals(log, s, p.book.reservations[id]);
    ReboundTallies(p.book, Rebind(p.book, id, e.upstream, e.keys, e.amounts), id, e, log, s);
  }

  lemma {:induction false} ReboundTallies(b: Book, c: Book, id: string, e: Event, log: seq<Item<Event>>, s: Slot)
    requires e.Bound? && id in b.reservations && ReservationValid(b.reservations[id])
    requires c == Rebind(b, id, e.upstream, e.keys, e.amounts) && log != []
    requires var past, own := log[..|log| - 1], OwnIn(b.reservations[id], s.window);
      && Moved(log, s) == Moved(past, s) + If(e.keys, s.key, own) - If(b.reservations[id].keys, s.key, own)
      && Opened(log, s) == Opened(past, s) && TokensUsed(log, s) == TokensUsed(past, s)
      && CostUsed(log, s) == CostUsed(past, s) && UnknownUses(log, s) == UnknownUses(past, s)
      && Tallies(past, At(b.usage, s), s)
    ensures Tallies(log, At(c.usage, s), s)
  {
    RebindMoves(b, id, e.upstream, e.keys, e.amounts, s);
    RebindSpares(b, id, e.upstream, e.keys, e.amounts, s);
  }

  lemma {:induction false} TallySettle(p: Replica, log: seq<Item<Event>>, s: Slot)
    requires log != [] && Replay(log[..|log| - 1]) == Options.Some(p) && Exact(p.book, log[|log| - 1])
    requires Conserved(p.book) && KeysKnown(log[..|log| - 1], p.book)
    requires Replay(log).Some? && log[|log| - 1].payload.UsageRecorded?
    requires Tallies(log[..|log| - 1], At(p.book.usage, s), s)
    ensures Tallies(log, At(Replay(log).value.book.usage, s), s)
  {
    var last := log[|log| - 1];
    var e, r := last.payload, p.book.reservations[last.entity];
    ReplayLast(log);
    SettleAt(p.book, last.entity, e.attemptId, e.known, e.tokens, e.cost, s);
    assert AttemptValid(r.attempts[e.attemptId], r);
    SettledTallies(log, At(p.book.usage, s), r.attempts[e.attemptId], s);
  }

  lemma {:induction false} SettledTallies(log: seq<Item<Event>>, u: Usage, a: Attempt, s: Slot)
    requires log != [] && Tallies(log[..|log| - 1], u, s) && log[|log| - 1].payload.UsageRecorded?
    requires Settles(log, s) <==> On(a, s)
    ensures var e := log[|log| - 1].payload;
      Tallies(log, SettledUsage(u, a, e.known, e.tokens, e.cost, s), s)
  {}

  lemma {:induction false} TallyOther(p: Replica, log: seq<Item<Event>>, s: Slot)
    requires log != [] && Replay(log[..|log| - 1]) == Options.Some(p) && Replay(log).Some?
    requires var e := log[|log| - 1].payload; e.Heartbeat? || e.Released? || e.Reconciled?
    requires Tallies(log[..|log| - 1], At(p.book.usage, s), s)
    ensures Tallies(log, At(Replay(log).value.book.usage, s), s)
  {
    var id := log[|log| - 1].entity;
    ReplayLast(log);
    if id in p.book.reservations { UnreserveAllAt(p.book.usage, p.book.reservations[id], s); }
  }

  /** Replay in closed form: every row of a ledger of the manager is the sum of its entries. */
  lemma {:induction false} ReplayTallies(log: seq<Item<Event>>, s: Slot)
    requires Told(log) && Replay(log).Some?
    ensures Tallies(log, At(Replay(log).value.book.usage, s), s)
  {
    if log != [] {
      var past := log[..|log| - 1];
      var p := Replay(past).value;
      ReplayTallies(past, s);
      RunKeysKnown(past);
      match log[|log| - 1].payload
      case Reserved(_, _, _, _, _, _, _, _) => TallyOpen(p, log, s);
      case AttemptReserved(_, _, _, _, _) => TallyOpen(p, log, s);
      case Bound(_, _, _, _) => TallyBound(p, log, s);
      case UsageRecorded(_, _, _, _, _, _, _, _) => TallySettle(p, log, s);
      case Heartbeat(_) => TallyOther(p, log, s);
      case Released => TallyOther(p, log, s);
      case Reconciled => TallyOther(p, log, s);
    }
  }

  // ---------------------------------------------------------------- ledgers of runs

  /** The keys of the entry are those the configuration asks for. */
  predicate Planned(cfg: Config, b: Book, item: Item<Event>) {
    match item.payload
    case Reserved(principal, tenant, upstream, model, _, _, _, keys) =>
      keys == BudgetKeys(cfg, Admission(principal, tenant, model, upstream))
    case Bound(_, upstream, keys, _) =>
      item.entity in b.reservations ==>
        keys == BudgetKeys(cfg, AdmissionOf(b.reservations[item.entity]).(upstream := upstream))
    case _ => true
  }

  ghost predicate PlannedLog(cfg: Config, log: seq<Item<Event>>) {
    log == [] ||
      var past := log[..|log| - 1];
      PlannedLog(cfg, past) && Replay(past).Some? && Planned(cfg, Replay(past).value.book, log[|log| - 1])
  }

  /** The ledger is as it was, or longer by one entry that belongs into it. */
  ghost predicate OneEntry(g: Gov, more: seq<Item<Event>>) {
    more == g.ledger ||
      (&& more != [] && more[..|more| - 1] == g.ledger && g.journalUp
       && Exact(g.book, more[|more| - 1]) && Planned(g.config, g.book, more[|more| - 1]))
  }

  lemma {:induction false} ExactAgrees(b: Book, c: Book, cfg: Config, item: Item<Event>)
    requires Agree(c, b) && Exact(b, item)
    ensures Exact(c, item)
    ensures Planned(cfg, b, item) ==> Planned(cfg, c, item)
  {
    var id := item.entity;
    if id in b.reservations {
      var r, q := c.reservations[id], b.reservations[id];
      assert SameReservation(r, q);
      assert forall i :: i in r.attempts ==> SameAttempt(r.attempts[i], q.attempts[i]);
    }
  }

  lemma {:induction false} ToldMore(g: Gov, more: seq<Item<Event>>)
    requires Told(g.ledger) && Invariant(g) && OneEntry(g, more)
    ensures Told(more)
    ensures PlannedLog(g.config, g.ledger) ==> PlannedLog(g.config, more)
  {
    if more != g.ledger { ExactAgrees(g.book, Replay(g.ledger).value.book, g.config, more[|more| - 1]); }
  }

  lemma {:induction false} AppendEntry(g: Gov, now: int, id: string, event: Event, ok: bool)
    requires Exact(g.book, Item(now, id, event)) && Planned(g.config, g.book, Item(now, id, event))
    ensures OneEntry(g, Append(g, now, id, event, ok).ledger)
  {
    assert (g.ledger + [Item(now, id, event)])[..|g.ledger|] == g.ledger;
  }

  lemma {:induction false} AdmitEntry(g: Gov, rawId: string, raw: Admission, now: nat, healthy: bool, ok: bool)
    ensures OneEntry(g, AdmitStep(g, rawId, raw, now, healthy, ok).0.ledger)
  {
    var id, adm := Glob.Trim(rawId), Normalize(raw);
    var keys := BudgetKeys(g.config, adm);
    BudgetKeysShape(g.config, adm);
    if id !in g.book.reservations {
      AppendEntry(g, now, id, Reserved(adm.principal, adm.tenant, adm.upstream, adm.model, FIRST_ATTEMPT,
                                       WindowOf(now), Amounts(g.config, g.estimates, adm.model, keys), keys), ok);
    }
  }

  lemma {:induction false} BindEntry(g: Gov, id: string, raw: string, now: nat, ok: bool)
    ensures OneEntry(g, BindStep(g, id, raw, now, ok).0.ledger)
  {
    var upstream := Glob.Trim(raw);
    if id in g.book.reservations && upstream != "" {
      var r := g.book.reservations[id];
      BudgetKeysShape(g.config, AdmissionOf(r).(upstream := upstream));
      AppendEntry(g, now, id, Bound(r.principal, upstream, BindingKeys(g, id, raw),
                                    BindingAmounts(r, BindingAmount(g, id, raw))), ok);
    }
  }

  lemma {:induction false} OpenEntry(g: Gov, id: string, i: string, now: nat, ok: bool)
    requires id in g.book.reservations && i !in g.book.reservations[id].attempts && i != ""
    ensures OneEntry(g, OpenStep(g, id, i, now, ok).0.ledger)
  {
    var r := g.book.reservations[id];
    AppendEntry(g, now, id, AttemptReserved(r.principal, i, WindowOf(now),
                                            Amounts(g.config, g.estimates, r.model, r.keys), r.keys), ok);
  }

  lemma {:induction false} BeginEntry(g: Gov, id: string, raw: string, now: nat, ok: bool)
    ensures OneEntry(g, BeginStep(g, id, raw, now, ok).0.ledger)
  {
    var i := Glob.Trim(raw);
    if id in g.book.reservations && i !in g.book.reservations[id].attempts && i != "" {
      OpenEntry(g, id, i, now, ok);
    }
  }

  lemma {:induction false} SettleEntry(g: Gov, id: string, i: string, usage: Reported, now: nat, ok: bool)
    requires Conserved(g.book) && ReportedInRange(usage) && id in g.book.reservations && i != ""
    requires i in g.book.reservations[id].attempts && i !in g.book.reservations[id].settlements
    ensures OneEntry(g, SettleStep(g, id, i, usage, now, ok).0.ledger)
  {
    var r := g.book.reservations[id];
    UnsettledIsOpen(g.book, id, i);
    AppendEntry(g, now, id, UsageRecorded(i, r.principal, r.model, i, r.attempts[i].window, usage.known,
                                          UsageTotal(usage), UsageCost(g.config, r.model, usage)), ok);
  }

  lemma {:induction false} ReleaseEntry(g: Gov, id: string, now: nat, ok: bool)
    ensures OneEntry(g, ReleaseStep(g, id, now, ok).0.ledger)
    ensures OneEntry(g, HeartbeatStep(g, id, now, ok).ledger)
  {
    AppendEntry(g, now, id, Governance.Released, ok);
    if id in g.book.reservations { AppendEntry(g, now, id, Heartbeat(g.book.reservations[id].principal), ok); }
  }

  /** What a ledger was, under the configuration it was written with. */
  ghost predicate Upheld(g: Gov, log: seq<Item<Event>>) {
    Told(log) && (PlannedLog(g.config, g.ledger) ==> PlannedLog(g.config, log))
  }

  lemma {:induction false} OpenInvariant(g: Gov, id: string, i: string, now: nat, ok: bool)
    requires Invariant(g) && g.running && id in g.book.reservations
    requires i !in g.book.reservations[id].attempts && i != ""
    ensures Invariant(OpenStep(g, id, i, now, ok).0)
  {
    var mid := OpenStep(g, id, i, now, ok).0;
    OpenStepConserves(g, id, i, now, ok);
    OpenStepRunning(g, id, i, now, ok);
    if g.journalUp {
      OpenStepRefines(g, id, i, now, ok);
      KeptIsFaithful(g, mid);
    } else {
      OpenStepDown(g, id, i, now, ok);
    }
    LiveInvariant(g, mid);
  }

  /** The state after reserving an unknown attempt is as good as any other. */
  lemma {:induction false} OpenKept(g: Gov, id: string, i: string, now: nat, ok: bool)
    requires Invariant(g) && g.running && Told(g.ledger)
    requires id in g.book.reservations && i !in g.book.reservations[id].attempts && i != ""
    ensures var (mid, outcome) := OpenStep(g, id, i, now, ok);
      && Invariant(mid) && Upheld(g, mid.ledger) && mid.config == g.config
      && (outcome == Done ==> && id in mid.book.reservations && i in mid.book.reservations[id].attempts
                              && i !in mid.book.reservations[id].settlements)
  {
    OpenEntry(g, id, i, now, ok);
    ToldMore(g, OpenStep(g, id, i, now, ok).0.ledger);
    OpenInvariant(g, id, i, now, ok);
    if OpenStep(g, id, i, now, ok).1 == Done { OpenStepOpens(g, id, i, now, ok); }
  }

  lemma {:induction false} SettleKept(g: Gov, mid: Gov, id: string, i: string, usage: Reported, now: nat, ok: bool)
    requires Invariant(mid) && Upheld(g, mid.ledger) && mid.config == g.config && ReportedInRange(usage) && i != ""
    requires id in mid.book.reservations && i in mid.book.reservations[id].attempts
    requires i !in mid.book.reservations[id].settlements
    ensures Upheld(g, SettleStep(mid, id, i, usage, now, ok).0.ledger)
    ensures SettleStep(mid, id, i, usage, now, ok).0.config == g.config
  {
    SettleEntry(mid, id, i, usage, now, ok);
    ToldMore(mid, SettleStep(mid, id, i, usage, now, ok).0.ledger);
  }

  lemma {:induction false} RecordKept(g: Gov, id: string, raw: string, usage: Reported, now: nat, okOpen: bool,
                                      ok: bool)
    requires Invariant(g) && g.running && Told(g.ledger) && ReportedInRange(usage)
    ensures Upheld(g, RecordStep(g, id, raw, usage, now, okOpen, ok).0.ledger)
    ensures RecordStep(g, id, raw, usage, now, okOpen, ok).0.config == g.config
  {
    var i := Glob.Trim(raw);
    if ValidId(i) && id in g.book.reservations && i !in g.book.reservations[id].settlements {
      if i in g.book.reservations[id].attempts {
        SettleKept(g, g, id, i, usage, now, ok);
      } else {
        var (mid, outcome) := OpenStep(g, id, i, now, okOpen);
        OpenKept(g, id, i, now, okOpen);
        if outcome == Done { SettleKept(g, mid, id, i, usage, now, ok); }
      }
    }
  }

  lemma {:induction false} ReconciledTold(log: seq<Item<Event>>, order: seq<string>, now: int)
    requires Told(log) && Sound(log)
    ensures Told(log + ReconciledItems(order, now))
    decreases |order|
  {
    if order == [] {
      assert log + ReconciledItems(order, now) == log;
    } else {
      var n := |order| - 1;
      ReconciledTold(log, order[..n], now);
      ReconciledSound(log, order[..n], now);
      ToldReconciled(log + ReconciledItems(order[..n], now), Item(now, order[n], Reconciled));
      LastReconciled(log, order, now);
    }
  }

  lemma {:induction false} ReconciledPlanned(cfg: Config, log: seq<Item<Event>>, order: seq<string>, now: int)
    requires PlannedLog(cfg, log) && Sound(log)
    ensures PlannedLog(cfg, log + ReconciledItems(order, now))
    decreases |order|
  {
    if order == [] {
      assert log + ReconciledItems(order, now) == log;
    } else {
      var n := |order| - 1;
      ReconciledPlanned(cfg, log, order[..n], now);
      ReconciledSound(log, order[..n], now);
      PlannedReconciled(cfg, log + ReconciledItems(order[..n], now), Item(now, order[n], Reconciled));
      LastReconciled(log, order, now);
    }
  }

  lemma {:induction false} LastReconciled(log: seq<Item<Event>>, order: seq<string>, now: int)
    requires order != []
    ensures var n := |order| - 1;
      log + ReconciledItems(order, now) == log + ReconciledItems(order[..n], now) + [Item(now, order[n], Reconciled)]
  {}

  lemma {:induction false} ReconciledSound(log: seq<Item<Event>>, order: seq<string>, now: int)
    requires Sound(log)
    ensures Sound(log + ReconciledItems(order, now))
  {
    ReplayReconciled(log, order, now);
    DropEachConserves(Replay(log).value.book, order);
  }

  lemma {:induction false} ToldReconciled(log: seq<Item<Event>>, item: Item<Event>)
    requires Told(log) && Sound(log) && item.payload.Reconciled?
    ensures Told(log + [item])
  {
    assert (log + [item])[..|log|] == log && (log + [item])[|log|] == item;
  }

  lemma {:induction false} PlannedReconciled(cfg: Config, log: seq<Item<Event>>, item: Item<Event>)
    requires PlannedLog(cfg, log) && Sound(log) && item.payload.Reconciled?
    ensures PlannedLog(cfg, log + [item])
  {
    assert (log + [item])[..|log|] == log && (log + [item])[|log|] == item;
  }

  lemma {:induction false} PlainEntry(g: Gov, op: Op)
    requires Possible(g, op) && !op.Apply? && !op.Restart? && !op.Record?
    ensures OneEntry(g, Step(g, op).ledger)
  {
    match op
    case Admit(id, adm, now, healthy, ok) => AdmitEntry(g, id, adm, now, healthy, ok);
    case Bind(id, upstream, now, ok) => BindEntry(g, id, upstream, now, ok);
    case Begin(id, attempt, now, ok) => BeginEntry(g, id, attempt, now, ok);
    case Release(id, now, ok) => ReleaseEntry(g, id, now, ok);
    case Beat(id, now, ok) => ReleaseEntry(g, id, now, ok);
  }

  lemma {:induction false} PlainConfig(g: Gov, op: Op)
    requires Possible(g, op) && !op.Apply? && !op.Record?
    ensures Step(g, op).config == g.config
  {}

  lemma {:induction false} LiveKept(g: Gov, op: Op)
    requires Invariant(g) && Told(g.ledger) && Possible(g, op) && !op.Apply? && !op.Restart?
    ensures Upheld(g, Step(g, op).ledger) && Step(g, op).config == g.config
  {
    if op.Record? {
      RecordKept(g, op.id, op.settlement, op.usage, op.now, op.okOpen, op.ok);
    } else {
      PlainEntry(g, op);
      PlainConfig(g, op);
      ToldMore(g, Step(g, op).ledger);
    }
  }

  lemma {:induction false} StepKept(g: Gov, op: Op)
    requires Invariant(g) && Told(g.ledger) && Possible(g, op)
    ensures Upheld(g, Step(g, op).ledger) && (!op.Apply? ==> Step(g, op).config == g.config)
  {
    if op.Restart? {
      ReconciledTold(g.ledger, Written(op.order, op.good), op.now);
      if PlannedLog(g.config, g.ledger) { ReconciledPlanned(g.config, g.ledger, Written(op.order, op.good), op.now); }
    } else if !op.Apply? {
      LiveKept(g, op);
    }
  }

  lemma {:induction false} NothingTold(cfg: Config)
    ensures Told(Initial(cfg).ledger) && PlannedLog(cfg, Initial(cfg).ledger)
  {}

  /** The configuration never changes; the mode may be any. */
  predicate Unchanged(ops: seq<Op>) { forall i :: 0 <= i < |ops| ==> !ops[i].Apply? }

  lemma {:induction false} RunTold(cfg: Config, gs: seq<Gov>, ops: seq<Op>, n: nat)
    requires IsRun(cfg, gs, ops) && n <= |ops|
    ensures Told(gs[n].ledger)
    ensures Unchanged(ops) ==> gs[n].config == cfg && PlannedLog(cfg, gs[n].ledger)
  {
    if n == 0 {
      NothingTold(cfg);
    } else {
      RunTold(cfg, gs, ops, n - 1);
      RunInvariant(cfg, gs, ops, n - 1);
      StepTold(cfg, gs[n - 1], ops[n - 1], Unchanged(ops));
    }
  }

  lemma {:induction false} StepTold(cfg: Config, g: Gov, op: Op, steady: bool)
    requires Invariant(g) && Possible(g, op) && (steady ==> !op.Apply?)
    requires Told(g.ledger) && (steady ==> g.config == cfg && PlannedLog(cfg, g.ledger))
    ensures Told(Step(g, op).ledger)
    ensures steady ==> Step(g, op).config == cfg && PlannedLog(cfg, Step(g, op).ledger)
  {
    StepKept(g, op);
  }

  // ---------------------------------------------------------------- what bindings do not move

  /** In the replayed book the keys are those the configuration asks for. */
  ghost predicate Current(cfg: Config, b: Book) {
    forall id :: CurrentAt(cfg, b, id)
  }

  lemma {:induction false} PlannedCurrent(cfg: Config, log: seq<Item<Event>>)
    requires PlannedLog(cfg, log) && Replay(log).Some?
    ensures Current(cfg, Replay(log).value.book)
  {
    if log != [] {
      var past, last := log[..|log| - 1], log[|log| - 1];
      PlannedCurrent(cfg, past);
      ReplayLast(log);
      CurrentStep(cfg, Replay(past).value, last);
    }
  }

  predicate CurrentAt(cfg: Config, b: Book, id: string) {
    id in b.reservations ==> b.reservations[id].keys == BudgetKeys(cfg, AdmissionOf(b.reservations[id]))
  }

  lemma {:induction false} CurrentElsewhere(p: Replica, entity: string, event: Event, id: string)
    requires ReplayEvent(p, entity, event).Some? && id != entity
    ensures var c := ReplayEvent(p, entity, event).value.book;
      id in c.reservations ==> id in p.book.reservations && c.reservations[id] == p.book.reservations[id]
  {}

  lemma {:induction false} CurrentHere(cfg: Config, p: Replica, item: Item<Event>)
    requires CurrentAt(cfg, p.book, item.entity) && Planned(cfg, p.book, item)
    requires ReplayEvent(p, item.entity, item.payload).Some?
    ensures CurrentAt(cfg, ReplayEvent(p, item.entity, item.payload).value.book, item.entity)
  {}

  lemma {:induction false} CurrentStep(cfg: Config, p: Replica, item: Item<Event>)
    requires Current(cfg, p.book) && Planned(cfg, p.book, item)
    requires ReplayEvent(p, item.entity, item.payload).Some?
    ensures Current(cfg, ReplayEvent(p, item.entity, item.payload).value.book)
  {
    var c := ReplayEvent(p, item.entity, item.payload).value.book;
    forall id ensures CurrentAt(cfg, c, id) {
      assert CurrentAt(cfg, p.book, id);
      if id == item.entity { CurrentHere(cfg, p, item); } else { CurrentElsewhere(p, item.entity, item.payload, id); }
    }
  }

  /** The keys of principals never change; those of tenants and models only with the
      configuration. */
  lemma {:induction false} BindingKeepsKey(cfg: Config, b: Book, item: Item<Event>, k: Key)
    requires Exact(b, item) && item.payload.Bound? && Conserved(b)
    requires k.scope == Principal || (k.scope != Upstream && Current(cfg, b) && Planned(cfg, b, item))
    ensures k in b.reservations[item.entity].keys <==> k in item.payload.keys
  {
    var r := b.reservations[item.entity];
    if k.scope == Principal {
      assert ReservationValid(r);
      assert r.keys[0] in r.keys && item.payload.keys[0] in item.payload.keys;
    } else {
      assert CurrentAt(cfg, b, item.entity);
      OtherKeysStay(cfg, AdmissionOf(r), item.payload.upstream, k);
    }
  }

  lemma {:induction false} NothingMoved(cfg: Config, log: seq<Item<Event>>, s: Slot)
    requires Told(log) && Replay(log).Some?
    requires s.key.scope == Principal || (s.key.scope != Upstream && PlannedLog(cfg, log))
    ensures Moved(log, s) == 0
  {
    if log != [] {
      var past, last := log[..|log| - 1], log[|log| - 1];
      NothingMoved(cfg, past, s);
      if last.payload.Bound? {
        RunKeysKnown(past);
        if s.key.scope != Principal { PlannedCurrent(cfg, past); }
        BindingKeepsKey(cfg, Replay(past).value.book, last, s.key);
      }
    }
  }

  // ---------------------------------------------------------------- whole runs

  /** Every row in closed form, in any run: as long as book and ledger tell the same story, the
      row of any key and window is what the entries of the ledger add up to. */
  lemma {:induction false} UsageIsTheLedger(cfg: Config, gs: seq<Gov>, ops: seq<Op>, n: nat, s: Slot)
    requires IsRun(cfg, gs, ops) && n <= |ops| && (gs[n].journalUp || !gs[n].running)
    ensures Tallies(gs[n].ledger, At(gs[n].book.usage, s), s)
  {
    RunInvariant(cfg, gs, ops, n);
    RunTold(cfg, gs, ops, n);
    ReplayTallies(gs[n].ledger, s);
  }

  /** Requests are attempts: the count of a key and window is the number of attempts opened on
      it, settled and released ones included.  For principals in any run, for tenants and models
      as long as the configuration stays. */
  lemma {:induction false} RequestsAreAttempts(cfg: Config, gs: seq<Gov>, ops: seq<Op>, n: nat, s: Slot)
    requires IsRun(cfg, gs, ops) && n <= |ops| && (gs[n].journalUp || !gs[n].running)
    requires s.key.scope == Principal || (s.key.scope != Upstream && Unchanged(ops))
    ensures At(gs[n].book.usage, s).requests == Opened(gs[n].ledger, s)
  {
    UsageIsTheLedger(cfg, gs, ops, n, s);
    RunTold(cfg, gs, ops, n);
    RunInvariant(cfg, gs, ops, n);
    NothingMoved(cfg, gs[n].ledger, s);
  }

  /** Attempts opened on a key between two times of the clock, whatever window they were
      filed under. */
  function OpenedBetween(log: seq<Item<Event>>, k: Key, from: int, to: int): nat {
    if log == [] then 0 else
      var last := log[|log| - 1];
      OpenedBetween(log[..|log| - 1], k, from, to)
      + if Opens(last.payload, k) && from <= last.time < to then 1 else 0
  }

  lemma {:induction false} MinuteOf(now: nat, minute: int)
    ensures 60 * minute <= now < 60 * minute + 60 <==> WindowOf(now) == 60 * minute
  {}

  lemma {:induction false} OpenedByClock(log: seq<Item<Event>>, k: Key, minute: int)
    requires Told(log)
    ensures OpenedBetween(log, k, 60 * minute, 60 * minute + 60) == Opened(log, Slot(k, 60 * minute))
  {
    if log != [] {
      var last := log[|log| - 1];
      OpenedByClock(log[..|log| - 1], k, minute);
      if Opens(last.payload, k) { MinuteOf(last.time, minute); }
    }
  }

  /** In enforce mode the row of a minute says what the ledger holds of that minute of the clock. */
  lemma {:induction false} RowByTheClock(cfg: Config, gs: seq<Gov>, ops: seq<Op>, n: nat, k: Key, minute: int)
    requires IsSteadyRun(cfg, gs, ops) && n <= |ops| && k.scope != Upstream
    ensures var log, s := gs[n].ledger, Slot(k, 60 * minute);
      var u := At(gs[n].book.usage, s);
      && u.requests == OpenedBetween(log, k, 60 * minute, 60 * minute + 60)
      && u.tokens == TokensUsed(log, s) && u.cost == CostUsed(log, s) && u.unknown == UnknownUses(log, s)
  {
    var log, s := gs[n].ledger, Slot(k, 60 * minute);
    RunTold(cfg, gs, ops, n);
    RunSteady(cfg, gs, ops, n);
    OpenedByClock(log, k, minute);
    ReplayTallies(log, s);
    NothingMoved(cfg, log, s);
  }

  /** The rate by the clock: in enforce mode, in no minute of the clock are more attempts opened
      on a principal, tenant or model than its requests per minute, restarts included. */
  lemma {:induction false} RateByTheClock(cfg: Config, gs: seq<Gov>, ops: seq<Op>, n: nat, k: Key, minute: int)
    requires IsSteadyRun(cfg, gs, ops) && n <= |ops|
    requires k.scope != Upstream && LimitsFor(cfg, k).requestsPerMinute > 0
    ensures OpenedBetween(gs[n].ledger, k, 60 * minute, 60 * minute + 60) <= LimitsFor(cfg, k).requestsPerMinute
  {
    RowByTheClock(cfg, gs, ops, n, k, minute);
    RateBound(cfg, gs, ops, n, Slot(k, 60 * minute));
  }

  // ---------------------------------------------------------------- settlements

  lemma {:induction false} SettleKeepsRequests(g: Gov, id: string, i: string, usage: Reported, now: nat, ok: bool,
                                               s: Slot)
    requires Conserved(g.book) && ReportedInRange(usage) && id in g.book.reservations
    requires i in g.book.reservations[id].attempts && i !in g.book.reservations[id].settlements
    ensures At(SettleStep(g, id, i, usage, now, ok).0.book.usage, s).requests == At(g.book.usage, s).requests
  {
    UnsettledIsOpen(g.book, id, i);
    SettleAt(g.book, id, i, usage.known, UsageTotal(usage), UsageCost(g.config, g.book.reservations[id].model, usage),
             s);
  }

  /** Recording the usage of an attempt that exists changes no request count at all. */
  lemma {:induction false} RecordKeepsRequests(g: Gov, id: string, raw: string, usage: Reported, now: nat,
                                               okOpen: bool, ok: bool, s: Slot)
    requires Conserved(g.book) && ReportedInRange(usage)
    requires id in g.book.reservations ==> Glob.Trim(raw) in g.book.reservations[id].attempts
    ensures At(RecordStep(g, id, raw, usage, now, okOpen, ok).0.book.usage, s).requests == At(g.book.usage, s).requests
  {
    var i := Glob.Trim(raw);
    if id in g.book.reservations && i !in g.book.reservations[id].settlements {
      SettleKeepsRequests(g, id, i, usage, now, ok, s);
    }
  }

  // ---------------------------------------------------------------- counters

  function Admissions(log: seq<Item<Event>>): nat {
    if log == [] then 0 else
      Admissions(log[..|log| - 1]) + if log[|log| - 1].payload.Reserved? then 1 else 0
  }

  function Settlements(log: seq<Item<Event>>, known: bool): nat {
    if log == [] then 0 else
      var e := log[|log| - 1].payload;
      Settlements(log[..|log| - 1], known) + if e.UsageRecorded? && e.known == known then 1 else 0
  }

  lemma {:induction false} ReplayCounts(log: seq<Item<Event>>)
    requires Told(log) && Replay(log).Some?
    ensures var c := Replay(log).value.counters;
      && c.admitted == Admissions(log) && c.known == Settlements(log, true) && c.unknown == Settlements(log, false)
      && c.settlements == c.known + c.unknown
  {
    if log != [] {
      var past, last := log[..|log| - 1], log[|log| - 1];
      ReplayCounts(past);
      ReplayLast(log);
      EventCounts(Replay(past).value, last);
      CountLast(log);
    }
  }

  lemma {:induction false} CountLast(log: seq<Item<Event>>)
    requires log != []
    ensures var past, e := log[..|log| - 1], log[|log| - 1].payload;
      && Admissions(log) == Admissions(past) + (if e.Reserved? then 1 else 0)
      && Settlements(log, true) == Settlements(past, true) + (if e.UsageRecorded? && e.known then 1 else 0)
      && Settlements(log, false) == Settlements(past, false) + (if e.UsageRecorded? && !e.known then 1 else 0)
  {}

  lemma {:induction false} EventCounts(p: Replica, item: Item<Event>)
    requires Exact(p.book, item) && ReplayEvent(p, item.entity, item.payload).Some?
    ensures var c, d, e := p.counters, ReplayEvent(p, item.entity, item.payload).value.counters, item.payload;
      && d.admitted == c.admitted + (if e.Reserved? then 1 else 0)
      && d.settlements == c.settlements + (if e.UsageRecorded? then 1 else 0)
      && d.known == c.known + (if e.UsageRecorded? && e.known then 1 else 0)
      && d.unknown == c.unknown + (if e.UsageRecorded? && !e.known then 1 else 0)
  {}

  /** The counters are those of the ledger: one admission per reservation entry, one settlement,
      known or unknown, per usage entry. */
  lemma {:induction false} CountersAreTheLedger(cfg: Config, gs: seq<Gov>, ops: seq<Op>, n: nat)
    requires IsRun(cfg, gs, ops) && n <= |ops| && (gs[n].journalUp || !gs[n].running)
    ensures var c, log := gs[n].counters, gs[n].ledger;
      && c.admitted == Admissions(log) && c.known == Settlements(log, true) && c.unknown == Settlements(log, false)
      && c.settlements == c.known + c.unknown
  {
    RunInvariant(cfg, gs, ops, n);
    RunTold(cfg, gs, ops, n);
    ReplayCounts(gs[n].ledger);
  }

  // ---------------------------------------------------------------- estimates

  predicate Samples(e: Event, model: string) { e.UsageRecorded? && e.known && e.model == model }

  /** The moving average of what a model's settled attempts used. */
  function TokenAverage(log: seq<Item<Event>>, model: string): nat {
    if log == [] then 0 else
      var before, e := TokenAverage(log[..|log| - 1], model), log[|log| - 1].payload;
      if Samples(e, model) then Blend(before, e.tokens) else before
  }

  function CostAverage(log: seq<Item<Event>>, model: string): nat {
    if log == [] then 0 else
      var before, e := CostAverage(log[..|log| - 1], model), log[|log| - 1].payload;
      if Samples(e, model) then Blend(before, e.cost) else before
  }

  function EstimateOf(estimates: map<string, Estimate>, model: string): Estimate {
    if model in estimates then estimates[model] else Estimate(0, 0)
  }

  lemma {:induction false} EventEstimates(p: Replica, item: Item<Event>, model: string)
    requires Exact(p.book, item) && ReplayEvent(p, item.entity, item.payload).Some?
    ensures var before, e := EstimateOf(p.estimates, model), item.payload;
      EstimateOf(ReplayEvent(p, item.entity, item.payload).value.estimates, model)
      == if Samples(e, model) then Estimate(Blend(before.tokens, e.tokens), Blend(before.cost, e.cost)) else before
  {}

  lemma {:induction false} ReplayEstimates(log: seq<Item<Event>>, model: string)
    requires Told(log) && Replay(log).Some?
    ensures EstimateOf(Replay(log).value.estimates, model) == Estimate(TokenAverage(log, model), CostAverage(log, model))
  {
    if log != [] {
      ReplayEstimates(log[..|log| - 1], model);
      ReplayLast(log);
      EventEstimates(Replay(log[..|log| - 1]).value, log[|log| - 1], model);
    }
  }

  /** What is expected of a model is the moving average over the ledger's known settlements of
      that model, in their order, and nothing else. */
  lemma {:induction false} EstimatesAreTheLedger(cfg: Config, gs: seq<Gov>, ops: seq<Op>, n: nat, model: string)
    requires IsRun(cfg, gs, ops) && n <= |ops| && (gs[n].journalUp || !gs[n].running)
    ensures EstimateOf(gs[n].estimates, model)
         == Estimate(TokenAverage(gs[n].ledger, model), CostAverage(gs[n].ledger, model))
  {
    RunInvariant(cfg, gs, ops, n);
    RunTold(cfg, gs, ops, n);
    ReplayEstimates(gs[n].ledger, model);
  }
}
