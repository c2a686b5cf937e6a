/** The accounting book of the governance manager: usage per budget key and minute
    window, and the open reservations with their attempts.  Live operations and ledger
    replay are both built from the four book transformers below. */
module GovernanceBook {
  import opened MapSums

  datatype Scope = Principal | Tenant | Model | Upstream
  datatype Key = Key(scope: Scope, value: string)
  datatype Slot = Slot(key: Key, window: int)

  datatype Usage = Usage(requests: int, tokens: int, cost: int,
                         reservedTokens: int, reservedCost: int, unknown: int)

  datatype Attempt = Attempt(window: int, tokens: int, cost: int,
                             released: bool, settled: bool, keys: seq<Key>)

  datatype Reservation = Reservation(principal: string, tenant: string, upstream: string, model: string,
                                     tokens: int, cost: int, settlements: map<string, int>,
                                     keys: seq<Key>, attempts: map<string, Attempt>)

  datatype Book = Book(usage: map<Slot, Usage>, reservations: map<string, Reservation>)

  /** Tokens and cost held by one attempt. */
  datatype Amount = Amount(tokens: int, cost: int)

  /** What is charged to a slot: the three quantities an attempt holds there. */
  datatype Measure = Requests | Tokens | Cost

  const UNUSED := Usage(0, 0, 0, 0, 0, 0)

  function At(usage: map<Slot, Usage>, s: Slot): Usage {
    if s in usage then usage[s] else UNUSED
  }

  function Plus(u: Usage, requests: int, tokens: int, cost: int): Usage {
    u.(requests := u.requests + requests, reservedTokens := u.reservedTokens + tokens,
       reservedCost := u.reservedCost + cost)
  }

  predicate Open(a: Attempt) { !a.released && !a.settled }

  ghost predicate HasOpen(r: Reservation) { exists i :: i in r.attempts && Open(r.attempts[i]) }

  predicate On(a: Attempt, s: Slot) { a.window == s.window && s.key in a.keys }

  function Slots(a: Attempt): set<Slot> { set k | k in a.keys :: Slot(k, a.window) }

  function Share(a: Attempt, m: Measure): int {
    match m
    case Requests => 1
    case Tokens => a.tokens
    case Cost => a.cost
  }

  // ---------------------------------------------------------------- loads

  ghost function AttemptLoad(s: Slot, m: Measure): Attempt -> int {
    a => if Open(a) && On(a, s) then Share(a, m) else 0
  }

  /** What the open attempts of one reservation hold on a slot. */
  ghost function Load(r: Reservation, s: Slot, m: Measure): int {
    Sum(r.attempts, AttemptLoad(s, m))
  }

  ghost function LoadOf(s: Slot, m: Measure): Reservation -> int {
    r => Load(r, s, m)
  }

  ghost function TotalLoad(rs: map<string, Reservation>, s: Slot, m: Measure): int {
    Sum(rs, LoadOf(s, m))
  }

  ghost function OpenShare(m: Measure): Attempt -> int {
    a => if Open(a) then Share(a, m) else 0
  }

  /** What the open attempts of one reservation hold, over all slots. */
  ghost function Holding(r: Reservation, m: Measure): int {
    Sum(r.attempts, OpenShare(m))
  }

  ghost function OpenSlots(r: Reservation): set<Slot> {
    set i, k | i in r.attempts && Open(r.attempts[i]) && k in r.attempts[i].keys :: Slot(k, r.attempts[i].window)
  }

  // ---------------------------------------------------------------- usage updates

  /** An attempt is charged: one request and its amounts on each of its keys. */
  function Charge(usage: map<Slot, Usage>, a: Attempt): map<Slot, Usage> {
    map s | s in usage.Keys + Slots(a) ::
      if On(a, s) then Plus(At(usage, s), 1, a.tokens, a.cost) else usage[s]
  }

  /** An attempt gives its amounts back; the request stays counted. */
  function Unreserve(usage: map<Slot, Usage>, a: Attempt): map<Slot, Usage> {
    map s | s in usage.Keys + Slots(a) ::
      if On(a, s) then Plus(At(usage, s), 0, -a.tokens, -a.cost) else usage[s]
  }

  /** A settlement is recorded on every key of the attempt. */
  function Consume(usage: map<Slot, Usage>, a: Attempt, known: bool, tokens: int, cost: int): map<Slot, Usage> {
    map s | s in usage.Keys + Slots(a) ::
      if On(a, s) then Consumed(At(usage, s), known, tokens, cost) else usage[s]
  }

  function Consumed(u: Usage, known: bool, tokens: int, cost: int): Usage {
    if known then u.(tokens := u.tokens + tokens, cost := u.cost + cost)
    else u.(unknown := u.unknown + 1)
  }

  /** Every open attempt of r gives its amounts back. */
  ghost function UnreserveAll(usage: map<Slot, Usage>, r: Reservation): map<Slot, Usage> {
    map s | s in usage.Keys + OpenSlots(r) ::
      Plus(At(usage, s), 0, -Load(r, s, Tokens), -Load(r, s, Cost))
  }

  /** The charges of reservation `before` are replaced by those of `after`. */
  ghost function Recharge(usage: map<Slot, Usage>, before: Reservation, after: Reservation): map<Slot, Usage> {
    map s | s in usage.Keys + OpenSlots(before) + OpenSlots(after) ::
      Plus(At(usage, s), Load(after, s, Requests) - Load(before, s, Requests),
           Load(after, s, Tokens) - Load(before, s, Tokens), Load(after, s, Cost) - Load(before, s, Cost))
  }

  // ---------------------------------------------------------------- transformers

  /** The reservation r, stored under id, opens one more attempt. */
  function OpenAttempt(b: Book, id: string, r: Reservation, attemptId: string, a: Attempt): Book {
    Book(Charge(b.usage, a),
         b.reservations[id := r.(attempts := r.attempts[attemptId := a],
                                 tokens := r.tokens + a.tokens, cost := r.cost + a.cost)])
  }

  function Rebound(a: Attempt, keys: seq<Key>, amount: Amount): Attempt {
    if Open(a) then a.(keys := keys, tokens := amount.tokens, cost := amount.cost) else a
  }

  function AmountOf(amounts: map<string, Amount>, id: string, a: Attempt): Amount {
    if id in amounts then amounts[id] else Amount(a.tokens, a.cost)
  }

  function ReboundAttempts(attempts: map<string, Attempt>, keys: seq<Key>, amounts: map<string, Amount>)
    : map<string, Attempt>
  {
    map i | i in attempts :: Rebound(attempts[i], keys, AmountOf(amounts, i, attempts[i]))
  }

  ghost function ReboundReservation(r: Reservation, upstream: string, keys: seq<Key>, amounts: map<string, Amount>)
    : Reservation
  {
    var moved := r.(attempts := ReboundAttempts(r.attempts, keys, amounts));
    moved.(upstream := upstream, keys := keys,
           tokens := r.tokens - Holding(r, Tokens) + Holding(moved, Tokens),
           cost := r.cost - Holding(r, Cost) + Holding(moved, Cost))
  }

  /** The open attempts of reservation id move to new keys and amounts. */
  ghost function Rebind(b: Book, id: string, upstream: string, keys: seq<Key>, amounts: map<string, Amount>): Book
    requires id in b.reservations
  {
    var r := b.reservations[id];
    var after := ReboundReservation(r, upstream, keys, amounts);
    Book(Recharge(b.usage, r, after), b.reservations[id := after])
  }

  /** Attempt attemptId of reservation id is settled: its amounts are given back and
      what it really used is recorded. */
  function Settle(b: Book, id: string, attemptId: string, settlementId: string,
                  known: bool, tokens: int, cost: int): Book
    requires id in b.reservations && attemptId in b.reservations[id].attempts
  {
    var r := b.reservations[id];
    var a := r.attempts[attemptId];
    var freed := if a.released then b.usage else Unreserve(b.usage, a);
    Book(Consume(freed, a, known, tokens, cost),
         b.reservations[id := r.(attempts := r.attempts[attemptId := a.(released := true, settled := true)],
                                 tokens := if a.released then r.tokens else r.tokens - a.tokens,
                                 cost := if a.released then r.cost else r.cost - a.cost,
                                 settlements := r.settlements[settlementId := cost])])
  }

  /** Reservation id is closed and forgotten. */
  ghost function Drop(b: Book, id: string): Book {
    if id !in b.reservations then b else
      Book(UnreserveAll(b.usage, b.reservations[id]), b.reservations - {id})
  }

  // ---------------------------------------------------------------- invariant

  predicate NoDuplicates(keys: seq<Key>) {
    forall i, j :: 0 <= i < j < |keys| ==> keys[i] != keys[j]
  }

  predicate IsPrincipalKey(k: Key) { k.scope.Principal? }

  /** Keys of a reservation: distinct, first the principal's own key, which is the only
      one of principal scope. */
  predicate KeysFor(keys: seq<Key>, principal: string) {
    && NoDuplicates(keys)
    && |keys| > 0 && keys[0] == Key(Principal, principal)
    && forall k :: k in keys && IsPrincipalKey(k) ==> k == keys[0]
  }

  predicate AttemptValid(a: Attempt, r: Reservation) {
    && a.tokens >= 0 && a.cost >= 0
    && (a.released <==> a.settled)
    && (Open(a) ==> a.keys == r.keys)
  }

  ghost predicate ReservationValid(r: Reservation) {
    && r.principal != "" && KeysFor(r.keys, r.principal)
    && (forall i :: i in r.attempts ==> AttemptValid(r.attempts[i], r))
    && (forall i :: i in r.attempts ==> (r.attempts[i].settled <==> i in r.settlements))
    && (forall i :: i in r.settlements ==> i in r.attempts)
    && r.tokens == Holding(r, Tokens)
    && r.cost == Holding(r, Cost)
  }

  ghost predicate SlotConserved(b: Book, s: Slot) {
    && At(b.usage, s).reservedTokens == TotalLoad(b.reservations, s, Tokens)
    && At(b.usage, s).reservedCost == TotalLoad(b.reservations, s, Cost)
    && At(b.usage, s).requests >= TotalLoad(b.reservations, s, Requests)
    && At(b.usage, s).tokens >= 0 && At(b.usage, s).cost >= 0 && At(b.usage, s).unknown >= 0
  }

  /** The conservation law. */
  ghost predicate Conserved(b: Book) {
    && (forall id :: id in b.reservations ==> ReservationValid(b.reservations[id]))
    && (forall s :: SlotConserved(b, s))
  }

  // ---------------------------------------------------------------- loads under updates

  lemma {:induction false} LoadNonNegative(r: Reservation, s: Slot, m: Measure)
    requires forall i :: i in r.attempts ==> r.attempts[i].tokens >= 0 && r.attempts[i].cost >= 0
    ensures 0 <= Load(r, s, m) <= Holding(r, m)
  {
    SumNonNegative(r.attempts, AttemptLoad(s, m));
    SumLeq(r.attempts, AttemptLoad(s, m), OpenShare(m));
  }

  lemma {:induction false} LoadOffSlots(r: Reservation, s: Slot, m: Measure)
    requires s !in OpenSlots(r)
    ensures Load(r, s, m) == 0
  {
    forall i | i in r.attempts ensures AttemptLoad(s, m)(r.attempts[i]) == 0 {
      var a := r.attempts[i];
      assert Open(a) && On(a, s) ==> Slot(s.key, a.window) in OpenSlots(r);
    }
    SumZero(r.attempts, AttemptLoad(s, m));
  }

  lemma {:induction false} LoadOtherFields(r: Reservation, q: Reservation, s: Slot, m: Measure)
    requires r.attempts == q.attempts
    ensures Load(r, s, m) == Load(q, s, m) && Holding(r, m) == Holding(q, m)
  {}

  /** A reservation's load after one of its attempts is replaced or added. */
  lemma {:induction false} LoadUpdate(r: Reservation, q: Reservation, i: string, a: Attempt, s: Slot, m: Measure)
    requires q.attempts == r.attempts[i := a]
    ensures Load(q, s, m) == Load(r, s, m)
            - (if i in r.attempts then AttemptLoad(s, m)(r.attempts[i]) else 0) + AttemptLoad(s, m)(a)
    ensures Holding(q, m) == Holding(r, m)
            - (if i in r.attempts then OpenShare(m)(r.attempts[i]) else 0) + OpenShare(m)(a)
  {
    SumUpdate(r.attempts, AttemptLoad(s, m), i, a);
    SumUpdate(r.attempts, OpenShare(m), i, a);
  }

  /** The total load after one reservation is replaced or added. */
  lemma {:induction false} TotalUpdate(rs: map<string, Reservation>, id: string, r: Reservation, s: Slot, m: Measure)
    ensures TotalLoad(rs[id := r], s, m) == TotalLoad(rs, s, m)
            - (if id in rs then Load(rs[id], s, m) else 0) + Load(r, s, m)
  {
    SumUpdate(rs, LoadOf(s, m), id, r);
  }

  lemma {:induction false} TotalRemove(rs: map<string, Reservation>, id: string, s: Slot, m: Measure)
    requires id in rs
    ensures TotalLoad(rs, s, m) == Load(rs[id], s, m) + TotalLoad(rs - {id}, s, m)
  {
    SumRemove(rs, LoadOf(s, m), id);
  }

  lemma {:induction false} TotalNonNegative(b: Book, s: Slot, m: Measure)
    requires forall id :: id in b.reservations ==> ReservationValid(b.reservations[id])
    ensures TotalLoad(b.reservations, s, m) >= 0
  {
    forall id | id in b.reservations ensures LoadOf(s, m)(b.reservations[id]) >= 0 {
      LoadNonNegative(b.reservations[id], s, m);
    }
    SumNonNegative(b.reservations, LoadOf(s, m));
  }

  /** No open attempt of a stored reservation can hold more than the book shows, so no
      subtraction of the manager is ever clipped at zero. */
  lemma {:induction false} NeverClipped(b: Book, id: string, s: Slot)
    requires Conserved(b) && id in b.reservations
    ensures 0 <= Load(b.reservations[id], s, Tokens) <= At(b.usage, s).reservedTokens
    ensures 0 <= Load(b.reservations[id], s, Cost) <= At(b.usage, s).reservedCost
    ensures 0 <= Load(b.reservations[id], s, Requests) <= At(b.usage, s).requests
  {
    assert SlotConserved(b, s);
    forall m: Measure ensures 0 <= Load(b.reservations[id], s, m) <= TotalLoad(b.reservations, s, m) {
      TotalRemove(b.reservations, id, s, m);
      LoadNonNegative(b.reservations[id], s, m);
      TotalNonNegative(Book(b.usage, b.reservations - {id}), s, m);
    }
    assert 0 <= Load(b.reservations[id], s, Tokens) <= TotalLoad(b.reservations, s, Tokens);
    assert 0 <= Load(b.reservations[id], s, Cost) <= TotalLoad(b.reservations, s, Cost);
    assert 0 <= Load(b.reservations[id], s, Requests) <= TotalLoad(b.reservations, s, Requests);
  }

  // ---------------------------------------------------------------- usage updates, slot by slot

  lemma {:induction false} ChargeAt(usage: map<Slot, Usage>, a: Attempt, s: Slot)
    ensures At(Charge(usage, a), s) == if On(a, s) then Plus(At(usage, s), 1, a.tokens, a.cost) else At(usage, s)
  {
    assert s in Slots(a) <==> On(a, s);
  }

  lemma {:induction false} UnreserveAt(usage: map<Slot, Usage>, a: Attempt, s: Slot)
    ensures At(Unreserve(usage, a), s) == if On(a, s) then Plus(At(usage, s), 0, -a.tokens, -a.cost) else At(usage, s)
  {
    assert s in Slots(a) <==> On(a, s);
  }

  lemma {:induction false} ConsumeAt(usage: map<Slot, Usage>, a: Attempt, known: bool, tokens: int, cost: int, s: Slot)
    ensures At(Consume(usage, a, known, tokens, cost), s)
         == if On(a, s) then Consumed(At(usage, s), known, tokens, cost) else At(usage, s)
  {
    assert s in Slots(a) <==> On(a, s);
  }

  lemma {:induction false} UnreserveAllAt(usage: map<Slot, Usage>, r: Reservation, s: Slot)
    ensures At(UnreserveAll(usage, r), s) == Plus(At(usage, s), 0, -Load(r, s, Tokens), -Load(r, s, Cost))
  {
    if s !in usage.Keys + OpenSlots(r) {
      LoadOffSlots(r, s, Tokens);
      LoadOffSlots(r, s, Cost);
    }
  }

  lemma {:induction false} RechargeAt(usage: map<Slot, Usage>, before: Reservation, after: Reservation, s: Slot)
    ensures At(Recharge(usage, before, after), s)
         == Plus(At(usage, s), Load(after, s, Requests) - Load(before, s, Requests),
                 Load(after, s, Tokens) - Load(before, s, Tokens), Load(after, s, Cost) - Load(before, s, Cost))
  {
    if s !in usage.Keys + OpenSlots(before) + OpenSlots(after) {
      forall m: Measure ensures Load(before, s, m) == 0 && Load(after, s, m) == 0 {
        LoadOffSlots(before, s, m);
        LoadOffSlots(after, s, m);
      }
    }
  }

  // ---------------------------------------------------------------- conservation, step by step

  /** r may be opened further: it is stored under id as it is, or it is a new, empty one. */
  ghost predicate CanOpen(b: Book, id: string, r: Reservation, attemptId: string, a: Attempt) {
    && ReservationValid(r)
    && (if id in b.reservations then r == b.reservations[id] else r.attempts == map[])
    && attemptId !in r.attempts
    && Open(a) && a.tokens >= 0 && a.cost >= 0 && a.keys == r.keys
  }

  lemma {:induction false} OpenAttemptValid(r: Reservation, q: Reservation, attemptId: string, a: Attempt)
    requires ReservationValid(r) && attemptId !in r.attempts
    requires Open(a) && a.tokens >= 0 && a.cost >= 0 && a.keys == r.keys
    requires q == r.(attempts := r.attempts[attemptId := a], tokens := r.tokens + a.tokens, cost := r.cost + a.cost)
    ensures ReservationValid(q)
  {
    var s := Slot(r.keys[0], 0);
    LoadUpdate(r, q, attemptId, a, s, Tokens);
    LoadUpdate(r, q, attemptId, a, s, Cost);
    assert attemptId !in r.settlements;
    forall i | i in q.attempts
      ensures AttemptValid(q.attempts[i], q) && (q.attempts[i].settled <==> i in q.settlements)
    {
      if i != attemptId { assert AttemptValid(r.attempts[i], r); }
    }
  }

  lemma {:induction false} OpenAttemptSlot(b: Book, id: string, r: Reservation, attemptId: string, a: Attempt, s: Slot)
    requires SlotConserved(b, s) && CanOpen(b, id, r, attemptId, a)
    ensures SlotConserved(OpenAttempt(b, id, r, attemptId, a), s)
  {
    var c := OpenAttempt(b, id, r, attemptId, a);
    OpenAttemptTotal(b, id, r, attemptId, a, s, Tokens);
    OpenAttemptTotal(b, id, r, attemptId, a, s, Cost);
    OpenAttemptTotal(b, id, r, attemptId, a, s, Requests);
    ChargeAt(b.usage, a, s);
  }

  lemma {:induction false} OpenAttemptTotal(b: Book, id: string, r: Reservation, attemptId: string, a: Attempt,
                                            s: Slot, m: Measure)
    requires CanOpen(b, id, r, attemptId, a)
    ensures TotalLoad(OpenAttempt(b, id, r, attemptId, a).reservations, s, m)
         == TotalLoad(b.reservations, s, m) + AttemptLoad(s, m)(a)
  {
    var q := OpenAttempt(b, id, r, attemptId, a).reservations[id];
    TotalUpdate(b.reservations, id, q, s, m);
    LoadUpdate(r, q, attemptId, a, s, m);
  }

  lemma {:induction false} OpenAttemptConserves(b: Book, id: string, r: Reservation, attemptId: string, a: Attempt)
    requires Conserved(b) && CanOpen(b, id, r, attemptId, a)
    ensures Conserved(OpenAttempt(b, id, r, attemptId, a))
  {
    var c := OpenAttempt(b, id, r, attemptId, a);
    OpenAttemptValid(r, c.reservations[id], attemptId, a);
    forall s ensures SlotConserved(c, s) {
      OpenAttemptSlot(b, id, r, attemptId, a, s);
    }
  }

  lemma {:induction false} RebindValid(r: Reservation, upstream: string, keys: seq<Key>, amounts: map<string, Amount>)
    requires ReservationValid(r) && KeysFor(keys, r.principal)
    requires forall i :: i in amounts ==> amounts[i].tokens >= 0 && amounts[i].cost >= 0
    ensures ReservationValid(ReboundReservation(r, upstream, keys, amounts))
  {
    var after := ReboundReservation(r, upstream, keys, amounts);
    var moved := r.(attempts := ReboundAttempts(r.attempts, keys, amounts));
    var s := Slot(r.keys[0], 0);
    LoadOtherFields(moved, after, s, Tokens);
    LoadOtherFields(moved, after, s, Cost);
    forall i | i in after.attempts
      ensures AttemptValid(after.attempts[i], after) && (after.attempts[i].settled <==> i in after.settlements)
    {
      assert AttemptValid(r.attempts[i], r);
    }
  }

  lemma {:induction false} RebindSlot(b: Book, id: string, upstream: string, keys: seq<Key>,
                                      amounts: map<string, Amount>, s: Slot)
    requires SlotConserved(b, s) && id in b.reservations
    ensures SlotConserved(Rebind(b, id, upstream, keys, amounts), s)
  {
    var r := b.reservations[id];
    var after := ReboundReservation(r, upstream, keys, amounts);
    TotalUpdate(b.reservations, id, after, s, Tokens);
    TotalUpdate(b.reservations, id, after, s, Cost);
    TotalUpdate(b.reservations, id, after, s, Requests);
    RechargeAt(b.usage, r, after, s);
  }

  lemma {:induction false} RebindConserves(b: Book, id: string, upstream: string, keys: seq<Key>,
                                           amounts: map<string, Amount>)
    requires Conserved(b) && id in b.reservations
    requires KeysFor(keys, b.reservations[id].principal)
    requires forall i :: i in amounts ==> amounts[i].tokens >= 0 && amounts[i].cost >= 0
    ensures Conserved(Rebind(b, id, upstream, keys, amounts))
  {
    var c := Rebind(b, id, upstream, keys, amounts);
    forall j | j in c.reservations ensures ReservationValid(c.reservations[j]) {
      if j == id { RebindValid(b.reservations[id], upstream, keys, amounts); }
    }
    forall s ensures SlotConserved(c, s) {
      RebindSlot(b, id, upstream, keys, amounts, s);
    }
  }

  lemma {:induction false} SettleValid(b: Book, id: string, attemptId: string, known: bool, tokens: int, cost: int)
    requires id in b.reservations && ReservationValid(b.reservations[id])
    requires attemptId in b.reservations[id].attempts && Open(b.reservations[id].attempts[attemptId])
    ensures ReservationValid(Settle(b, id, attemptId, attemptId, known, tokens, cost).reservations[id])
  {
    var r := b.reservations[id];
    var a := r.attempts[attemptId];
    var q := Settle(b, id, attemptId, attemptId, known, tokens, cost).reservations[id];
    var s := Slot(r.keys[0], 0);
    var closed := a.(released := true, settled := true);
    LoadUpdate(r, q, attemptId, closed, s, Tokens);
    LoadUpdate(r, q, attemptId, closed, s, Cost);
    assert AttemptValid(a, r);
    forall i | i in q.attempts
      ensures AttemptValid(q.attempts[i], q) && (q.attempts[i].settled <==> i in q.settlements)
    {
      if i != attemptId { assert AttemptValid(r.attempts[i], r); }
    }
  }

  lemma {:induction false} SettleTotal(b: Book, id: string, attemptId: string, known: bool, tokens: int, cost: int,
                                       s: Slot, m: Measure)
    requires id in b.reservations
    requires attemptId in b.reservations[id].attempts && Open(b.reservations[id].attempts[attemptId])
    ensures TotalLoad(Settle(b, id, attemptId, attemptId, known, tokens, cost).reservations, s, m)
         == TotalLoad(b.reservations, s, m) - AttemptLoad(s, m)(b.reservations[id].attempts[attemptId])
  {
    var r := b.reservations[id];
    var q := Settle(b, id, attemptId, attemptId, known, tokens, cost).reservations[id];
    TotalUpdate(b.reservations, id, q, s, m);
    LoadUpdate(r, q, attemptId, r.attempts[attemptId].(released := true, settled := true), s, m);
  }

  function SettledUsage(u: Usage, a: Attempt, known: bool, tokens: int, cost: int, s: Slot): Usage {
    if On(a, s) then Consumed(Plus(u, 0, -a.tokens, -a.cost), known, tokens, cost) else u
  }

  /** Settling moves an attempt's share from reserved to used, on each of its slots. */
  lemma {:induction false} SettleAt(b: Book, id: string, attemptId: string, known: bool, tokens: int, cost: int,
                                    s: Slot)
    requires id in b.reservations
    requires attemptId in b.reservations[id].attempts && Open(b.reservations[id].attempts[attemptId])
    ensures At(Settle(b, id, attemptId, attemptId, known, tokens, cost).usage, s)
         == SettledUsage(At(b.usage, s), b.reservations[id].attempts[attemptId], known, tokens, cost, s)
  {
    var a := b.reservations[id].attempts[attemptId];
    UnreserveAt(b.usage, a, s);
    ConsumeAt(Unreserve(b.usage, a), a, known, tokens, cost, s);
  }

  lemma {:induction false} SettleSlot(b: Book, id: string, attemptId: string, known: bool, tokens: int, cost: int,
                                      s: Slot)
    requires SlotConserved(b, s) && id in b.reservations && tokens >= 0 && cost >= 0
    requires attemptId in b.reservations[id].attempts && Open(b.reservations[id].attempts[attemptId])
    ensures SlotConserved(Settle(b, id, attemptId, attemptId, known, tokens, cost), s)
  {
    SettleAt(b, id, attemptId, known, tokens, cost, s);
    SettleTotal(b, id, attemptId, known, tokens, cost, s, Tokens);
    SettleTotal(b, id, attemptId, known, tokens, cost, s, Cost);
    SettleTotal(b, id, attemptId, known, tokens, cost, s, Requests);
  }

  lemma {:induction false} SettleConserves(b: Book, id: string, attemptId: string, known: bool, tokens: int, cost: int)
    requires Conserved(b) && id in b.reservations && tokens >= 0 && cost >= 0
    requires attemptId in b.reservations[id].attempts && Open(b.reservations[id].attempts[attemptId])
    ensures Conserved(Settle(b, id, attemptId, attemptId, known, tokens, cost))
  {
    var c := Settle(b, id, attemptId, attemptId, known, tokens, cost);
    SettleValid(b, id, attemptId, known, tokens, cost);
    forall s ensures SlotConserved(c, s) {
      SettleSlot(b, id, attemptId, known, tokens, cost, s);
    }
  }

  lemma {:induction false} DropSlot(b: Book, id: string, s: Slot)
    requires SlotConserved(b, s) && id in b.reservations && ReservationValid(b.reservations[id])
    ensures SlotConserved(Drop(b, id), s)
  {
    var r := b.reservations[id];
    TotalRemove(b.reservations, id, s, Tokens);
    TotalRemove(b.reservations, id, s, Cost);
    TotalRemove(b.reservations, id, s, Requests);
    LoadNonNegative(r, s, Requests);
    UnreserveAllAt(b.usage, r, s);
  }

  lemma {:induction false} DropConserves(b: Book, id: string)
    requires Conserved(b)
    ensures Conserved(Drop(b, id))
  {
    if id in b.reservations {
      forall s ensures SlotConserved(Drop(b, id), s) {
        DropSlot(b, id, s);
      }
    }
  }

  // ---------------------------------------------------------------- agreement of two books

  /** Attempts that differ at most in the keys kept after they were closed. */
  predicate SameAttempt(a: Attempt, c: Attempt) {
    a == c.(keys := a.keys) && (Open(a) ==> a.keys == c.keys)
  }

  ghost predicate SameReservation(r: Reservation, q: Reservation) {
    && r == q.(attempts := r.attempts)
    && r.attempts.Keys == q.attempts.Keys
    && forall i :: i in r.attempts ==> SameAttempt(r.attempts[i], q.attempts[i])
  }

  /** The two books show the same usage and would treat every later operation alike. */
  ghost predicate Agree(b: Book, c: Book) {
    && b.usage == c.usage
    && b.reservations.Keys == c.reservations.Keys
    && forall id :: id in b.reservations ==> SameReservation(b.reservations[id], c.reservations[id])
  }

  lemma {:induction false} SameLoad(r: Reservation, q: Reservation, s: Slot, m: Measure)
    requires SameReservation(r, q)
    ensures Load(r, s, m) == Load(q, s, m)
  {
    SumSame(r.attempts, AttemptLoad(s, m), q.attempts, AttemptLoad(s, m));
  }

  lemma {:induction false} SameHolding(r: Reservation, q: Reservation, m: Measure)
    requires SameReservation(r, q)
    ensures Holding(r, m) == Holding(q, m)
  {
    SumSame(r.attempts, OpenShare(m), q.attempts, OpenShare(m));
  }

  lemma {:induction false} SameOpenSlots(r: Reservation, q: Reservation)
    requires SameReservation(r, q)
    ensures OpenSlots(r) == OpenSlots(q)
  {
    assert forall i :: i in r.attempts ==> SameAttempt(r.attempts[i], q.attempts[i]);
  }

  lemma {:induction false} OpenAttemptAgrees(b: Book, c: Book, id: string, r: Reservation, q: Reservation,
                                             attemptId: string, a: Attempt)
    requires Agree(b, c) && SameReservation(r, q)
    ensures Agree(OpenAttempt(b, id, r, attemptId, a), OpenAttempt(c, id, q, attemptId, a))
  {}

  lemma {:induction false} ReboundSame(r: Reservation, q: Reservation, upstream: string, keys: seq<Key>,
                                       amounts: map<string, Amount>)
    requires SameReservation(r, q)
    ensures SameReservation(ReboundReservation(r, upstream, keys, amounts),
                            ReboundReservation(q, upstream, keys, amounts))
  {
    var rm := r.(attempts := ReboundAttempts(r.attempts, keys, amounts));
    var qm := q.(attempts := ReboundAttempts(q.attempts, keys, amounts));
    forall i | i in rm.attempts ensures SameAttempt(rm.attempts[i], qm.attempts[i]) {
      assert SameAttempt(r.attempts[i], q.attempts[i]);
    }
    assert SameReservation(rm, qm);
    forall m: Measure ensures Holding(r, m) == Holding(q, m) && Holding(rm, m) == Holding(qm, m) {
      SameHolding(r, q, m);
      SameHolding(rm, qm, m);
    }
  }

  /** Two usage tables with the same rows are equal. */
  lemma {:induction false} SameRows(u: map<Slot, Usage>, v: map<Slot, Usage>)
    requires u.Keys == v.Keys && forall s :: s in u ==> At(u, s) == At(v, s)
    ensures u == v
  {
    assert forall s :: s in u ==> u[s] == At(u, s) && v[s] == At(v, s);
  }

  lemma {:induction false} SameRechargeAt(usage: map<Slot, Usage>, r: Reservation, rAfter: Reservation,
                                          q: Reservation, qAfter: Reservation, s: Slot)
    requires forall m :: Load(r, s, m) == Load(q, s, m) && Load(rAfter, s, m) == Load(qAfter, s, m)
    ensures At(Recharge(usage, r, rAfter), s) == At(Recharge(usage, q, qAfter), s)
  {
    RechargeAt(usage, r, rAfter, s);
    RechargeAt(usage, q, qAfter, s);
  }

  lemma {:induction false} SameRecharge(usage: map<Slot, Usage>, r: Reservation, rAfter: Reservation, q: Reservation,
                                        qAfter: Reservation)
    requires SameReservation(r, q) && SameReservation(rAfter, qAfter)
    ensures Recharge(usage, r, rAfter) == Recharge(usage, q, qAfter)
  {
    SameOpenSlots(r, q);
    SameOpenSlots(rAfter, qAfter);
    var u, v := Recharge(usage, r, rAfter), Recharge(usage, q, qAfter);
    assert u.Keys == v.Keys;
    forall s | s in u ensures At(u, s) == At(v, s) {
      forall m: Measure ensures Load(r, s, m) == Load(q, s, m) && Load(rAfter, s, m) == Load(qAfter, s, m) {
        SameLoad(r, q, s, m);
        SameLoad(rAfter, qAfter, s, m);
      }
      SameRechargeAt(usage, r, rAfter, q, qAfter, s);
    }
    SameRows(u, v);
  }

  lemma {:induction false} RebindAgrees(b: Book, c: Book, id: string, upstream: string, keys: seq<Key>,
                                        amounts: map<string, Amount>)
    requires Agree(b, c) && id in b.reservations
    ensures Agree(Rebind(b, id, upstream, keys, amounts), Rebind(c, id, upstream, keys, amounts))
  {
    var r, q := b.reservations[id], c.reservations[id];
    ReboundSame(r, q, upstream, keys, amounts);
    SameRecharge(b.usage, r, ReboundReservation(r, upstream, keys, amounts),
                 q, ReboundReservation(q, upstream, keys, amounts));
  }

  lemma {:induction false} SettleAgrees(b: Book, c: Book, id: string, attemptId: string, settlementId: string,
                     known: bool, tokens: int, cost: int)
    requires Agree(b, c) && id in b.reservations
    requires attemptId in b.reservations[id].attempts && Open(b.reservations[id].attempts[attemptId])
    ensures Agree(Settle(b, id, attemptId, settlementId, known, tokens, cost),
                  Settle(c, id, attemptId, settlementId, known, tokens, cost))
  {
    assert SameReservation(b.reservations[id], c.reservations[id]);
    assert SameAttempt(b.reservations[id].attempts[attemptId], c.reservations[id].attempts[attemptId]);
  }

  lemma {:induction false} SameUnreserveAt(usage: map<Slot, Usage>, r: Reservation, q: Reservation, s: Slot)
    requires Load(r, s, Tokens) == Load(q, s, Tokens) && Load(r, s, Cost) == Load(q, s, Cost)
    ensures At(UnreserveAll(usage, r), s) == At(UnreserveAll(usage, q), s)
  {
    UnreserveAllAt(usage, r, s);
    UnreserveAllAt(usage, q, s);
  }

  lemma {:induction false} SameUnreserve(usage: map<Slot, Usage>, r: Reservation, q: Reservation)
    requires SameReservation(r, q)
    ensures UnreserveAll(usage, r) == UnreserveAll(usage, q)
  {
    SameOpenSlots(r, q);
    var u, v := UnreserveAll(usage, r), UnreserveAll(usage, q);
    assert u.Keys == v.Keys;
    forall s | s in u ensures At(u, s) == At(v, s) {
      SameLoad(r, q, s, Tokens);
      SameLoad(r, q, s, Cost);
      SameUnreserveAt(usage, r, q, s);
    }
    SameRows(u, v);
  }

  lemma {:induction false} DropAgrees(b: Book, c: Book, id: string)
    requires Agree(b, c)
    ensures Agree(Drop(b, id), Drop(c, id))
  {
    if id in b.reservations {
      SameUnreserve(b.usage, b.reservations[id], c.reservations[id]);
    }
  }

  /** Conservation passes from a book to any book that agrees with it. */
  lemma {:induction false} AgreeConserves(b: Book, c: Book)
    requires Agree(b, c) && Conserved(c)
    ensures Conserved(b)
  {
    forall id | id in b.reservations ensures ReservationValid(b.reservations[id]) {
      SameValid(b.reservations[id], c.reservations[id]);
    }
    forall s ensures SlotConserved(b, s) {
      assert SlotConserved(c, s);
      SameTotal(b, c, s, Tokens);
      SameTotal(b, c, s, Cost);
      SameTotal(b, c, s, Requests);
    }
  }

  lemma {:induction false} SameValid(r: Reservation, q: Reservation)
    requires SameReservation(r, q) && ReservationValid(q)
    ensures ReservationValid(r)
  {
    SameHolding(r, q, Tokens);
    SameHolding(r, q, Cost);
    forall i | i in r.attempts
      ensures AttemptValid(r.attempts[i], r) && (r.attempts[i].settled <==> i in r.settlements)
    {
      assert SameAttempt(r.attempts[i], q.attempts[i]) && AttemptValid(q.attempts[i], q);
    }
  }

  lemma {:induction false} SameTotal(b: Book, c: Book, s: Slot, m: Measure)
    requires Agree(b, c)
    ensures TotalLoad(b.reservations, s, m) == TotalLoad(c.reservations, s, m)
  {
    forall id | id in b.reservations ensures LoadOf(s, m)(b.reservations[id]) == LoadOf(s, m)(c.reservations[id]) {
      SameLoad(b.reservations[id], c.reservations[id], s, m);
    }
    SumSame(b.reservations, LoadOf(s, m), c.reservations, LoadOf(s, m));
  }
}
