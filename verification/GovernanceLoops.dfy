/** The loops that keep the book: over the keys of an attempt and over the attempts of a
    reservation, with saturating additions and subtractions clipped at zero, against the
    whole-map updates of the book. */
module GovernanceLoops {
  import opened MapSums
  import opened GovernanceBook
  import opened GovernancePolicy

  // ---------------------------------------------------------------- one row

  predicate InRange(x: int) { MIN_INT64 <= x <= MAX_INT64 }

  /** The row can take the amounts without saturating. */
  predicate Room(u: Usage, tokens: int, cost: int) {
    InRange(u.reservedTokens + tokens) && InRange(u.reservedCost + cost)
  }

  /** The row holds the amounts that are to be taken back. */
  predicate Holds(u: Usage, tokens: int, cost: int) { u.reservedTokens >= tokens && u.reservedCost >= cost }

  predicate RoomUsed(u: Usage, tokens: int, cost: int) { InRange(u.tokens + tokens) && InRange(u.cost + cost) }

  function ChargeRow(u: Usage, a: Attempt): Usage {
    u.(requests := u.requests + 1, reservedTokens := SafeAdd(u.reservedTokens, a.tokens),
       reservedCost := SafeAdd(u.reservedCost, a.cost))
  }

  function FreeRow(u: Usage, a: Attempt): Usage {
    u.(reservedTokens := Max(u.reservedTokens - a.tokens, 0), reservedCost := Max(u.reservedCost - a.cost, 0))
  }

  function UnchargeRow(u: Usage, a: Attempt): Usage {
    FreeRow(u, a).(requests := Max(u.requests - 1, 0))
  }

  function ConsumeRow(u: Usage, known: bool, tokens: int, cost: int): Usage {
    if known then u.(tokens := SafeAdd(u.tokens, Max(tokens, 0)), cost := SafeAdd(u.cost, Max(cost, 0)))
    else u.(unknown := u.unknown + 1)
  }

  /** An attempt takes back its request and its amounts. */
  function Uncharge(usage: map<Slot, Usage>, a: Attempt): map<Slot, Usage> {
    map s | s in usage.Keys + Slots(a) ::
      if On(a, s) then Plus(At(usage, s), -1, -a.tokens, -a.cost) else usage[s]
  }

  lemma {:induction false} UnchargeAt(usage: map<Slot, Usage>, a: Attempt, s: Slot)
    ensures At(Uncharge(usage, a), s) == if On(a, s) then Plus(At(usage, s), -1, -a.tokens, -a.cost) else At(usage, s)
  {
    assert s in Slots(a) <==> On(a, s);
  }

  // ---------------------------------------------------------------- over the keys of an attempt

  /** The row of each of the given keys is replaced by a function of itself. */
  function Each(usage: map<Slot, Usage>, keys: seq<Key>, window: int, f: Usage -> Usage): map<Slot, Usage> {
    map s | s in usage.Keys + KeySlots(keys, window) ::
      if s in KeySlots(keys, window) then f(At(usage, s)) else usage[s]
  }

  function KeySlots(keys: seq<Key>, window: int): set<Slot> { set k | k in keys :: Slot(k, window) }

  lemma {:induction false} KeySlotsNext(keys: seq<Key>, window: int, i: nat)
    requires i < |keys| && NoDuplicates(keys)
    ensures KeySlots(keys[..i + 1], window) == KeySlots(keys[..i], window) + {Slot(keys[i], window)}
    ensures Slot(keys[i], window) !in KeySlots(keys[..i], window)
  {
    assert keys[..i + 1] == keys[..i] + [keys[i]];
    forall s
      ensures s in KeySlots(keys[..i + 1], window) <==> s in KeySlots(keys[..i], window) + {Slot(keys[i], window)}
    {
      assert s.key in keys[..i + 1] <==> s.key in keys[..i] || s.key == keys[i];
    }
  }

  lemma {:induction false} EachNext(usage: map<Slot, Usage>, keys: seq<Key>, window: int, f: Usage -> Usage, i: nat)
    requires i < |keys| && NoDuplicates(keys)
    ensures var before, s := Each(usage, keys[..i], window, f), Slot(keys[i], window);
      && At(before, s) == At(usage, s)
      && Each(usage, keys[..i + 1], window, f) == before[s := f(At(usage, s))]
  {
    KeySlotsNext(keys, window, i);
  }

  /** Visits the keys in order, reading and writing one row at a time. */
  method UpdateKeys(usage: map<Slot, Usage>, keys: seq<Key>, window: int,
                    f: Usage -> Usage) returns (u: map<Slot, Usage>)
    ensures NoDuplicates(keys) ==> u == Each(usage, keys, window, f)
  {
    u := usage;
    assert keys[..0] == [] && keys[..|keys|] == keys;
    for i := 0 to |keys|
      invariant NoDuplicates(keys) ==> u == Each(usage, keys[..i], window, f)
    {
      if NoDuplicates(keys) { EachNext(usage, keys, window, f, i); }
      var s := Slot(keys[i], window);
      u := u[s := f(At(u, s))];
    }
  }

  lemma {:induction false} SlotsOf(a: Attempt)
    ensures Slots(a) == KeySlots(a.keys, a.window) && forall s :: s in Slots(a) <==> On(a, s)
  {
  }

  predicate RoomFor(usage: map<Slot, Usage>, a: Attempt) {
    forall s :: s in Slots(a) ==> Room(At(usage, s), a.tokens, a.cost)
  }

  predicate HeldBy(usage: map<Slot, Usage>, a: Attempt) {
    forall s :: s in Slots(a) ==> Holds(At(usage, s), a.tokens, a.cost)
  }

  predicate ChargedBy(usage: map<Slot, Usage>, a: Attempt) {
    forall s :: s in Slots(a) ==> Holds(At(usage, s), a.tokens, a.cost) && At(usage, s).requests >= 1
  }

  predicate RoomToUse(usage: map<Slot, Usage>, a: Attempt, known: bool, tokens: int, cost: int) {
    tokens >= 0 && cost >= 0 && (known ==> forall s :: s in Slots(a) ==> RoomUsed(At(usage, s), tokens, cost))
  }

  /** Charges an attempt to its keys. */
  method ChargeKeys(usage: map<Slot, Usage>, a: Attempt) returns (u: map<Slot, Usage>)
    ensures NoDuplicates(a.keys) && RoomFor(usage, a) ==> u == Charge(usage, a)
  {
    SlotsOf(a);
    u := UpdateKeys(usage, a.keys, a.window, row => ChargeRow(row, a));
  }

  /** Gives an attempt's amounts back on each of its keys. */
  method FreeKeys(usage: map<Slot, Usage>, a: Attempt) returns (u: map<Slot, Usage>)
    ensures NoDuplicates(a.keys) && HeldBy(usage, a) ==> u == Unreserve(usage, a)
  {
    SlotsOf(a);
    u := UpdateKeys(usage, a.keys, a.window, row => FreeRow(row, a));
  }

  /** Takes an attempt off its keys, as before it moves to others. */
  method UnchargeKeys(usage: map<Slot, Usage>, a: Attempt) returns (u: map<Slot, Usage>)
    ensures NoDuplicates(a.keys) && ChargedBy(usage, a) ==> u == Uncharge(usage, a)
  {
    SlotsOf(a);
    u := UpdateKeys(usage, a.keys, a.window, row => UnchargeRow(row, a));
  }

  lemma {:induction false} ConsumedRow(u: Usage, known: bool, tokens: int, cost: int)
    requires tokens >= 0 && cost >= 0 && (known ==> RoomUsed(u, tokens, cost))
    ensures ConsumeRow(u, known, tokens, cost) == Consumed(u, known, tokens, cost)
  {
  }

  function Consumer(known: bool, tokens: int, cost: int): Usage -> Usage { row => ConsumeRow(row, known, tokens, cost) }

  lemma {:induction false} EachConsumes(usage: map<Slot, Usage>, a: Attempt, known: bool, tokens: int, cost: int)
    requires RoomToUse(usage, a, known, tokens, cost)
    ensures Each(usage, a.keys, a.window, Consumer(known, tokens, cost)) == Consume(usage, a, known, tokens, cost)
  {
    SlotsOf(a);
    forall s | s in Slots(a)
      ensures ConsumeRow(At(usage, s), known, tokens, cost) == Consumed(At(usage, s), known, tokens, cost)
    {
      ConsumedRow(At(usage, s), known, tokens, cost);
    }
  }

  /** First the principal's own row, then that of every key of another scope. */
  method UpdateOwnAndOthers(usage: map<Slot, Usage>, principal: string, keys: seq<Key>, window: int, f: Usage -> Usage)
    returns (u: map<Slot, Usage>)
    ensures KeysFor(keys, principal) ==> u == Each(usage, keys, window, f)
  {
    var own := Slot(Key(Principal, principal), window);
    ghost var exact := KeysFor(keys, principal);
    if exact { OwnRow(usage, principal, keys, window, f); }
    u := usage[own := f(At(usage, own))];
    for i := 0 to |keys|
      invariant exact ==> OwnAndSome(u, usage, keys, window, f, i)
    {
      if exact { OwnAndNext(u, usage, principal, keys, window, f, i); }
      u := UpdateOther(u, keys[i], window, f);
    }
    if exact { OwnAndAll(u, usage, keys, window, f); }
  }

  function OtherUpdated(u: map<Slot, Usage>, key: Key, window: int, f: Usage -> Usage): map<Slot, Usage> {
    if IsPrincipalKey(key) then u else u[Slot(key, window) := f(At(u, Slot(key, window)))]
  }

  method UpdateOther(u: map<Slot, Usage>, key: Key, window: int, f: Usage -> Usage) returns (v: map<Slot, Usage>)
    ensures v == OtherUpdated(u, key, window, f)
  {
    v := u;
    if !IsPrincipalKey(key) {
      var s := Slot(key, window);
      v := v[s := f(At(v, s))];
    }
  }

  /** The principal's row, and those of the first keys, are up to date. */
  ghost predicate OwnAndSome(u: map<Slot, Usage>, usage: map<Slot, Usage>, keys: seq<Key>, window: int,
                             f: Usage -> Usage, i: nat) {
    i <= |keys| && keys != [] && u == Each(usage, keys[..if i == 0 then 1 else i], window, f)
  }

  lemma {:induction false} OwnAndNext(u: map<Slot, Usage>, usage: map<Slot, Usage>, principal: string, keys: seq<Key>,
                                      window: int,
                                      f: Usage -> Usage, i: nat)
    requires KeysFor(keys, principal) && i < |keys| && OwnAndSome(u, usage, keys, window, f, i)
    ensures OwnAndSome(OtherUpdated(u, keys[i], window, f), usage, keys, window, f, i + 1)
  {
    assert IsPrincipalKey(keys[i]) <==> i == 0;
    if i > 0 { EachNext(usage, keys, window, f, i); }
  }

  lemma {:induction false} OwnAndAll(u: map<Slot, Usage>, usage: map<Slot, Usage>, keys: seq<Key>, window: int,
                                     f: Usage -> Usage)
    requires OwnAndSome(u, usage, keys, window, f, |keys|)
    ensures u == Each(usage, keys, window, f)
  {
    assert keys[..|keys|] == keys;
  }

  lemma {:induction false} OwnRow(usage: map<Slot, Usage>, principal: string, keys: seq<Key>, window: int,
                                  f: Usage -> Usage)
    requires KeysFor(keys, principal)
    ensures var own := Slot(Key(Principal, principal), window);
      OwnAndSome(usage[own := f(At(usage, own))], usage, keys, window, f, 0)
  {
    EachNext(usage, keys, window, f, 0);
    assert keys[..0] == [];
    assert Each(usage, keys[..0], window, f) == usage;
  }

  /** Records a settlement on the keys of its attempt. */
  method ConsumeKeys(usage: map<Slot, Usage>, principal: string, a: Attempt, known: bool, tokens: int, cost: int)
    returns (u: map<Slot, Usage>)
    ensures KeysFor(a.keys, principal) && RoomToUse(usage, a, known, tokens, cost) ==>
      u == Consume(usage, a, known, tokens, cost)
  {
    u := UpdateOwnAndOthers(usage, principal, a.keys, a.window, Consumer(known, tokens, cost));
    if RoomToUse(usage, a, known, tokens, cost) { EachConsumes(usage, a, known, tokens, cost); }
  }

  // ---------------------------------------------------------------- over the attempts of a reservation

  /** The reservation as far as the attempts already visited go. */
  function Restrict(r: Reservation, done: set<string>): Reservation {
    r.(attempts := map i | i in r.attempts && i in done :: r.attempts[i])
  }

  lemma {:induction false} RestrictNext(r: Reservation, done: set<string>, i: string)
    requires i in r.attempts && i !in done
    ensures Restrict(r, done + {i}).attempts == Restrict(r, done).attempts[i := r.attempts[i]]
    ensures i !in Restrict(r, done).attempts
  {
  }

  lemma {:induction false} RestrictLoad(r: Reservation, done: set<string>, i: string, s: Slot, m: Measure)
    requires i in r.attempts && i !in done
    ensures Load(Restrict(r, done + {i}), s, m) == Load(Restrict(r, done), s, m) + AttemptLoad(s, m)(r.attempts[i])
    ensures Holding(Restrict(r, done + {i}), m) == Holding(Restrict(r, done), m) + OpenShare(m)(r.attempts[i])
  {
    RestrictNext(r, done, i);
    LoadUpdate(Restrict(r, done), Restrict(r, done + {i}), i, r.attempts[i], s, m);
  }

  lemma {:induction false} RestrictSlots(r: Reservation, done: set<string>, i: string)
    requires i in r.attempts && i !in done
    ensures OpenSlots(Restrict(r, done + {i}))
         == OpenSlots(Restrict(r, done)) + if Open(r.attempts[i]) then Slots(r.attempts[i]) else {}
  {
    var q, p := Restrict(r, done + {i}), Restrict(r, done);
    RestrictNext(r, done, i);
    forall s | s in OpenSlots(q) ensures s in OpenSlots(p) || (Open(r.attempts[i]) && s in Slots(r.attempts[i])) {
      var j, k :| j in q.attempts && Open(q.attempts[j]) && k in q.attempts[j].keys && s == Slot(k,
                                                                                                 q.attempts[j].window);
      if j != i { assert p.attempts[j] == q.attempts[j]; }
    }
    forall s | s in OpenSlots(p) ensures s in OpenSlots(q) {
      var j, k :| j in p.attempts && Open(p.attempts[j]) && k in p.attempts[j].keys && s == Slot(k,
                                                                                                 p.attempts[j].window);
      assert q.attempts[j] == p.attempts[j];
    }
    if Open(r.attempts[i]) {
      forall s | s in Slots(r.attempts[i]) ensures s in OpenSlots(q) { assert q.attempts[i] == r.attempts[i]; }
    }
  }

  lemma {:induction false} RestrictAll(r: Reservation)
    ensures Restrict(r, r.attempts.Keys) == r && Restrict(r, {}).attempts == map[]
  {
    assert Restrict(r, r.attempts.Keys).attempts == r.attempts;
  }

  /** q is p with one more attempt. */
  ghost predicate Extends(p: Reservation, q: Reservation, a: Attempt) {
    && (forall s, m :: Load(q, s, m) == Load(p, s, m) + AttemptLoad(s, m)(a))
    && OpenSlots(q) == OpenSlots(p) + if Open(a) then Slots(a) else {}
  }

  lemma {:induction false} RestrictExtends(r: Reservation, done: set<string>, i: string)
    requires i in r.attempts && i !in done
    ensures Extends(Restrict(r, done), Restrict(r, done + {i}), r.attempts[i])
  {
    RestrictSlots(r, done, i);
    forall s, m
      ensures Load(Restrict(r, done + {i}), s, m) == Load(Restrict(r, done), s, m) + AttemptLoad(s, m)(r.attempts[i])
    {
      RestrictLoad(r, done, i, s, m);
    }
  }

  lemma {:induction false} FreedRow(u: Usage, before: map<Slot, Usage>, after: map<Slot, Usage>, p: Reservation,
                                    q: Reservation, a: Attempt, s: Slot)
    requires Extends(p, q, a)
    requires At(before, s) == Plus(u, 0, -Load(p, s, Tokens), -Load(p, s, Cost))
    requires At(after, s) == Plus(u, 0, -Load(q, s, Tokens), -Load(q, s, Cost))
    ensures At(after, s) == FreedShare(before, a, s)
  {
    assert Load(q, s, Tokens) == Load(p, s, Tokens) + AttemptLoad(s, Tokens)(a);
    assert Load(q, s, Cost) == Load(p, s, Cost) + AttemptLoad(s, Cost)(a);
  }

  /** The rows of u are those of usage with the holdings of p given back. */
  ghost predicate Freed(u: map<Slot, Usage>, usage: map<Slot, Usage>, p: Reservation) {
    && u.Keys == usage.Keys + OpenSlots(p)
    && forall s :: At(u, s) == Plus(At(usage, s), 0, -Load(p, s, Tokens), -Load(p, s, Cost))
  }

  lemma {:induction false} UnreserveAllFreed(usage: map<Slot, Usage>, p: Reservation)
    ensures Freed(UnreserveAll(usage, p), usage, p)
  {
    var u := UnreserveAll(usage, p);
    forall s ensures At(u, s) == Plus(At(usage, s), 0, -Load(p, s, Tokens), -Load(p, s, Cost)) {
      UnreserveAllAt(usage, p, s);
    }
  }

  /** Freeing one more attempt of a reservation. */
  lemma {:induction false} UnreserveOneMore(usage: map<Slot, Usage>, p: Reservation, q: Reservation, a: Attempt)
    requires Extends(p, q, a)
    ensures UnreserveAll(usage, q)
         == if Open(a) then Unreserve(UnreserveAll(usage, p), a) else UnreserveAll(usage, p)
  {
    UnreserveAllFreed(usage, p);
    UnreserveAllFreed(usage, q);
    FreedRows(usage, UnreserveAll(usage, p), UnreserveAll(usage, q), p, q, a);
  }

  lemma {:induction false} FreedRows(usage: map<Slot, Usage>, before: map<Slot, Usage>, after: map<Slot, Usage>,
                                     p: Reservation, q: Reservation, a: Attempt)
    requires Extends(p, q, a) && Freed(before, usage, p) && Freed(after, usage, q)
    ensures after == if Open(a) then Unreserve(before, a) else before
  {
    forall s ensures At(after, s) == FreedShare(before, a, s) { FreedRow(At(usage, s), before, after, p, q, a, s); }
    FreedByRow(before, after, a);
  }

  function FreedShare(before: map<Slot, Usage>, a: Attempt, s: Slot): Usage {
    if Open(a) && On(a, s) then Plus(At(before, s), 0, -a.tokens, -a.cost) else At(before, s)
  }

  lemma {:induction false} FreedByRow(before: map<Slot, Usage>, after: map<Slot, Usage>, a: Attempt)
    requires after.Keys == before.Keys + if Open(a) then Slots(a) else {}
    requires forall s :: At(after, s) == FreedShare(before, a, s)
    ensures after == if Open(a) then Unreserve(before, a) else before
  {
    var freed := if Open(a) then Unreserve(before, a) else before;
    forall s | s in after ensures At(after, s) == At(freed, s) { UnreserveAt(before, a, s); }
    SameRows(after, freed);
  }

  // ---------------------------------------------------------------- moving a reservation

  /** A row once the charges of p have been replaced by those of pNew. */
  ghost function Shifted(u: Usage, p: Reservation, pNew: Reservation, s: Slot): Usage {
    Plus(u, Load(pNew, s, Requests) - Load(p, s, Requests), Load(pNew, s, Tokens) - Load(p, s, Tokens),
         Load(pNew, s, Cost) - Load(p, s, Cost))
  }

  ghost predicate Tracks(t: map<Slot, Usage>, usage: map<Slot, Usage>, p: Reservation, pNew: Reservation) {
    t.Keys == usage.Keys + OpenSlots(p) + OpenSlots(pNew) && forall s :: At(t, s) == Shifted(At(usage, s), p, pNew, s)
  }

  lemma {:induction false} RechargeTracks(usage: map<Slot, Usage>, p: Reservation, pNew: Reservation)
    ensures Tracks(Recharge(usage, p, pNew), usage, p, pNew)
  {
    var t := Recharge(usage, p, pNew);
    forall s ensures At(t, s) == Shifted(At(usage, s), p, pNew, s) { RechargeAt(usage, p, pNew, s); }
  }

  lemma {:induction false} TracksUnique(t: map<Slot, Usage>, v: map<Slot, Usage>, usage: map<Slot, Usage>,
                                        p: Reservation, pNew: Reservation)
    requires Tracks(t, usage, p, pNew) && Tracks(v, usage, p, pNew)
    ensures t == v
  {
    forall s | s in t ensures At(t, s) == At(v, s) { assert At(t, s) == Shifted(At(usage, s), p, pNew, s); }
    SameRows(t, v);
  }

  lemma {:induction false} ShiftedMore(u: Usage, p: Reservation, q: Reservation, a: Attempt,
                                       pNew: Reservation, qNew: Reservation, aNew: Attempt, s: Slot)
    requires Extends(p, q, a) && Extends(pNew, qNew, aNew) && Open(a) && Open(aNew)
    ensures var off := if On(a, s) then Plus(Shifted(u, p, pNew, s), -1, -a.tokens, -a.cost) else Shifted(u, p, pNew,
                                                                                                          s);
      Shifted(u, q, qNew, s) == if On(aNew, s) then Plus(off, 1, aNew.tokens, aNew.cost) else off
  {
    forall m: Measure ensures Load(q, s, m) == Load(p, s, m) + AttemptLoad(s, m)(a) {}
    forall m: Measure ensures Load(qNew, s, m) == Load(pNew, s, m) + AttemptLoad(s, m)(aNew) {}
  }

  lemma {:induction false} MovedRow(t: map<Slot, Usage>, u: Usage, p: Reservation, q: Reservation, a: Attempt,
                                    pNew: Reservation, qNew: Reservation, aNew: Attempt, s: Slot)
    requires Extends(p, q, a) && Extends(pNew, qNew, aNew) && Open(a) && Open(aNew)
    requires At(t, s) == Shifted(u, p, pNew, s)
    ensures At(Charge(Uncharge(t, a), aNew), s) == Shifted(u, q, qNew, s)
  {
    ShiftedMore(u, p, q, a, pNew, qNew, aNew, s);
    ChargeAt(Uncharge(t, a), aNew, s);
    UnchargeAt(t, a, s);
  }

  lemma {:induction false} MovedKeys(t: map<Slot, Usage>, a: Attempt, aNew: Attempt)
    ensures Charge(Uncharge(t, a), aNew).Keys == t.Keys + Slots(a) + Slots(aNew)
  {
  }

  /** Moving one more attempt: off its old keys and onto the new ones. */
  lemma {:induction false} TracksMore(t: map<Slot, Usage>, moved: map<Slot, Usage>, usage: map<Slot, Usage>,
                                      p: Reservation, q: Reservation, a: Attempt,
                                      pNew: Reservation, qNew: Reservation, aNew: Attempt)
    requires Extends(p, q, a) && Extends(pNew, qNew, aNew) && Open(a) && Open(aNew) && Tracks(t, usage, p, pNew)
    requires moved == Charge(Uncharge(t, a), aNew)
    ensures Tracks(moved, usage, q, qNew)
  {
    MovedKeys(t, a, aNew);
    assert moved.Keys == usage.Keys + OpenSlots(q) + OpenSlots(qNew);
    forall s ensures At(moved, s) == Shifted(At(usage, s), q, qNew, s) {
      MovedRow(t, At(usage, s), p, q, a, pNew, qNew, aNew, s);
    }
  }

  lemma {:induction false} ClosedRow(u: Usage, p: Reservation, q: Reservation, a: Attempt,
                                     pNew: Reservation, qNew: Reservation, aNew: Attempt, s: Slot)
    requires Extends(p, q, a) && Extends(pNew, qNew, aNew) && !Open(a) && !Open(aNew)
    ensures Shifted(u, q, qNew, s) == Shifted(u, p, pNew, s)
  {
    forall m: Measure ensures Load(q, s, m) == Load(p, s, m) && Load(qNew, s, m) == Load(pNew, s, m) {}
  }

  lemma {:induction false} TracksClosed(t: map<Slot, Usage>, usage: map<Slot, Usage>, p: Reservation, q: Reservation,
                                        a: Attempt,
                                        pNew: Reservation, qNew: Reservation, aNew: Attempt)
    requires Extends(p, q, a) && Extends(pNew, qNew, aNew) && !Open(a) && !Open(aNew) && Tracks(t, usage, p, pNew)
    ensures Tracks(t, usage, q, qNew)
  {
    forall s ensures At(t, s) == Shifted(At(usage, s), q, qNew, s) {
      ClosedRow(At(usage, s), p, q, a, pNew, qNew, aNew, s);
    }
  }

  // ---------------------------------------------------------------- loops over attempts

  predicate NonNegative(r: Reservation) {
    forall i :: i in r.attempts ==> r.attempts[i].tokens >= 0 && r.attempts[i].cost >= 0
  }

  /** A part of a reservation holds no more than the whole of it. */
  lemma {:induction false} PartLoad(r: Reservation, done: set<string>, s: Slot, m: Measure)
    requires NonNegative(r)
    ensures 0 <= Load(Restrict(r, done), s, m) <= Load(r, s, m)
    ensures 0 <= Holding(Restrict(r, done), m) <= Holding(r, m)
  {
    SumPart(Restrict(r, done).attempts, r.attempts, AttemptLoad(s, m));
    SumPart(Restrict(r, done).attempts, r.attempts, OpenShare(m));
  }

  /** Every row shows at least what the reservation holds there. */
  ghost predicate Covered(usage: map<Slot, Usage>, r: Reservation) {
    forall s, m :: Load(r, s, m) <= Measured(At(usage, s), m)
  }

  function Measured(u: Usage, m: Measure): int {
    match m
    case Requests => u.requests
    case Tokens => u.reservedTokens
    case Cost => u.reservedCost
  }

  predicate Distinct(r: Reservation) {
    forall i :: i in r.attempts && Open(r.attempts[i]) ==> NoDuplicates(r.attempts[i].keys)
  }

  lemma {:induction false} StillHeld(usage: map<Slot, Usage>, u: map<Slot, Usage>, r: Reservation, done: set<string>,
                                     i: string, s: Slot)
    requires NonNegative(r) && Covered(usage, r) && done <= r.attempts.Keys && i in r.attempts && i !in done
    requires Open(r.attempts[i]) && On(r.attempts[i], s)
    requires u == UnreserveAll(usage, Restrict(r, done))
    ensures Holds(At(u, s), r.attempts[i].tokens, r.attempts[i].cost)
  {
    UnreserveAllAt(usage, Restrict(r, done), s);
    RestrictLoad(r, done, i, s, Tokens);
    RestrictLoad(r, done, i, s, Cost);
    PartLoad(r, done + {i}, s, Tokens);
    PartLoad(r, done + {i}, s, Cost);
    assert Load(r, s, Tokens) <= Measured(At(usage, s), Tokens);
    assert Load(r, s, Cost) <= Measured(At(usage, s), Cost);
  }

  lemma {:induction false} StillHeldBy(usage: map<Slot, Usage>, u: map<Slot, Usage>, r: Reservation,
                                       done: set<string>, i: string)
    requires NonNegative(r) && Covered(usage, r) && done <= r.attempts.Keys && i in r.attempts && i !in done
    requires Open(r.attempts[i]) && u == UnreserveAll(usage, Restrict(r, done))
    ensures HeldBy(u, r.attempts[i])
  {
    SlotsOf(r.attempts[i]);
    forall s | s in Slots(r.attempts[i]) ensures Holds(At(u, s), r.attempts[i].tokens, r.attempts[i].cost) {
      StillHeld(usage, u, r, done, i, s);
    }
  }

  lemma {:induction false} UnreserveNone(usage: map<Slot, Usage>, r: Reservation)
    ensures UnreserveAll(usage, Restrict(r, {})) == usage
  {
    var p := Restrict(r, {});
    RestrictAll(r);
    var u := UnreserveAll(usage, p);
    assert OpenSlots(p) == {};
    forall s | s in u ensures At(u, s) == At(usage, s) {
      UnreserveAllAt(usage, p, s);
      SumZero(p.attempts, AttemptLoad(s, Tokens));
      SumZero(p.attempts, AttemptLoad(s, Cost));
    }
    SameRows(u, usage);
  }

  /** The next attempt freed. */
  lemma {:induction false} FreeNext(usage: map<Slot, Usage>, u: map<Slot, Usage>, r: Reservation, done: set<string>,
                                    i: string)
    requires i in r.attempts && i !in done && u == UnreserveAll(usage, Restrict(r, done))
    ensures UnreserveAll(usage, Restrict(r, done + {i}))
         == if Open(r.attempts[i]) then Unreserve(u, r.attempts[i]) else u
  {
    RestrictExtends(r, done, i);
    UnreserveOneMore(usage, Restrict(r, done), Restrict(r, done + {i}), r.attempts[i]);
  }

  /** What the loop needs to be exact. */
  ghost predicate Freeable(usage: map<Slot, Usage>, r: Reservation) {
    && NonNegative(r) && Covered(usage, r) && Distinct(r)
    && forall i :: i in r.attempts ==> (r.attempts[i].released <==> r.attempts[i].settled)
  }

  /** What the loop has freed after the attempts visited so far. */
  ghost predicate FreedSoFar(u: map<Slot, Usage>, usage: map<Slot, Usage>, r: Reservation, done: set<string>) {
    Freeable(usage, r) ==> u == UnreserveAll(usage, Restrict(r, done))
  }

  method FreeOne(u: map<Slot, Usage>, a: Attempt, ghost usage: map<Slot, Usage>, ghost r: Reservation,
                 ghost done: set<string>, ghost i: string)
    returns (v: map<Slot, Usage>)
    requires done <= r.attempts.Keys && i in r.attempts && i !in done && a == r.attempts[i]
    requires FreedSoFar(u, usage, r, done)
    ensures FreedSoFar(v, usage, r, done + {i})
  {
    v := u;
    if !a.released { v := FreeKeys(u, a); }
    if Freeable(usage, r) {
      FreeNext(usage, u, r, done, i);
      if Open(a) { StillHeldBy(usage, u, r, done, i); }
    }
  }

  lemma {:induction false} FreedNone(usage: map<Slot, Usage>, r: Reservation)
    ensures FreedSoFar(usage, usage, r, {})
  {
    UnreserveNone(usage, r);
  }

  lemma {:induction false} FreedAll(u: map<Slot, Usage>, usage: map<Slot, Usage>, r: Reservation, done: set<string>)
    requires FreedSoFar(u, usage, r, done) && done == r.attempts.Keys
    ensures Freeable(usage, r) ==> u == UnreserveAll(usage, r)
  {
    RestrictAll(r);
  }

  /** Frees the open attempts of a reservation, in any order. */
  method FreeAttempts(usage: map<Slot, Usage>, r: Reservation) returns (u: map<Slot, Usage>)
    ensures Freeable(usage, r) ==> u == UnreserveAll(usage, r)
  {
    u := usage;
    var todo := r.attempts.Keys;
    ghost var done: set<string> := {};
    FreedNone(usage, r);
    while todo != {}
      invariant todo <= r.attempts.Keys && done == r.attempts.Keys - todo
      invariant FreedSoFar(u, usage, r, done)
      decreases |todo|
    {
      var i :| i in todo;
      u := FreeOne(u, r.attempts[i], usage, r, done, i);
      todo, done := todo - {i}, done + {i};
    }
    FreedAll(u, usage, r, done);
  }

  // ---------------------------------------------------------------- the loop of a binding

  /** The sums of a binding stay within int64, whatever the order of the attempts. */
  ghost predicate RoomToMove(usage: map<Slot, Usage>, r: Reservation, after: Reservation) {
    && RowsHaveRoom(usage, after)
    && InRange(r.tokens + Holding(after, Tokens)) && InRange(r.cost + Holding(after, Cost))
  }

  ghost predicate RowsHaveRoom(usage: map<Slot, Usage>, after: Reservation) {
    forall s :: InRange(At(usage, s).reservedTokens + Load(after, s, Tokens))
             && InRange(At(usage, s).reservedCost + Load(after, s, Cost))
  }

  /** The reservation's totals are those of its attempts and stay within int64. */
  ghost predicate Balanced(r: Reservation, after: Reservation) {
    && NonNegative(r) && NonNegative(after)
    && r.tokens == Holding(r, Tokens) && r.cost == Holding(r, Cost)
    && InRange(r.tokens + Holding(after, Tokens)) && InRange(r.cost + Holding(after, Cost))
  }

  /** What the loop needs to be exact: the reservation's totals are those of its attempts, and
      its charges are in the book. */
  ghost predicate Movable(usage: map<Slot, Usage>, r: Reservation, after: Reservation) {
    Balanced(r, after) && Distinct(r) && Distinct(after) && Covered(usage, r) && RowsHaveRoom(usage, after)
  }

  lemma {:induction false} TracksNone(usage: map<Slot, Usage>, r: Reservation, after: Reservation)
    ensures Tracks(usage, usage, Restrict(r, {}), Restrict(after, {}))
    ensures Holding(Restrict(r, {}), Tokens) == 0 && Holding(Restrict(r, {}), Cost) == 0
    ensures Holding(Restrict(after, {}), Tokens) == 0 && Holding(Restrict(after, {}), Cost) == 0
  {
    RestrictAll(r);
    RestrictAll(after);
    var p, pNew := Restrict(r, {}), Restrict(after, {});
    assert OpenSlots(p) == {} && OpenSlots(pNew) == {};
  }

  ghost predicate Visited(r: Reservation, after: Reservation, done: set<string>, i: string) {
    && i in r.attempts && i !in done && r.attempts.Keys == after.attempts.Keys
    && Open(r.attempts[i]) && Open(after.attempts[i])
  }

  lemma {:induction false} TracksMeasured(u: map<Slot, Usage>, usage: map<Slot, Usage>, p: Reservation,
                                          pNew: Reservation, s: Slot, m: Measure)
    requires Tracks(u, usage, p, pNew)
    ensures Measured(At(u, s), m) == Measured(At(usage, s), m) + Load(pNew, s, m) - Load(p, s, m)
  {
    assert At(u, s) == Shifted(At(usage, s), p, pNew, s);
  }

  lemma {:induction false} StillCharged(u: map<Slot, Usage>, usage: map<Slot, Usage>, r: Reservation,
                                        after: Reservation,
                                        done: set<string>, i: string, s: Slot, m: Measure)
    requires Visited(r, after, done, i) && NonNegative(r) && NonNegative(after) && Covered(usage, r)
    requires Tracks(u, usage, Restrict(r, done), Restrict(after, done)) && On(r.attempts[i], s)
    ensures Measured(At(u, s), m) >= Share(r.attempts[i], m)
  {
    RestrictLoad(r, done, i, s, m);
    PartLoad(r, done + {i}, s, m);
    PartLoad(after, done, s, m);
    assert Load(r, s, m) <= Measured(At(usage, s), m);
    TracksMeasured(u, usage, Restrict(r, done), Restrict(after, done), s, m);
  }

  lemma {:induction false} StillChargedBy(u: map<Slot, Usage>, usage: map<Slot, Usage>, r: Reservation,
                                          after: Reservation,
                                          done: set<string>, i: string)
    requires Visited(r, after, done, i) && NonNegative(r) && NonNegative(after) && Covered(usage, r)
    requires Tracks(u, usage, Restrict(r, done), Restrict(after, done))
    ensures ChargedBy(u, r.attempts[i])
  {
    var a := r.attempts[i];
    SlotsOf(a);
    forall s | s in Slots(a) ensures Holds(At(u, s), a.tokens, a.cost) && At(u, s).requests >= 1 {
      StillCharged(u, usage, r, after, done, i, s, Tokens);
      StillCharged(u, usage, r, after, done, i, s, Cost);
      StillCharged(u, usage, r, after, done, i, s, Requests);
    }
  }

  lemma {:induction false} RoomAt(u: map<Slot, Usage>, usage: map<Slot, Usage>, r: Reservation, after: Reservation,
                                  done: set<string>, i: string, s: Slot, m: Measure)
    requires Visited(r, after, done, i) && NonNegative(r) && NonNegative(after) && Covered(usage, r) && m != Requests
    requires Tracks(u, usage, Restrict(r, done), Restrict(after, done)) && On(after.attempts[i], s)
    requires InRange(Measured(At(usage, s), m) + Load(after, s, m))
    ensures InRange(Measured(At(Uncharge(u, r.attempts[i]), s), m) + Share(after.attempts[i], m))
  {
    RestrictLoad(r, done, i, s, m);
    RestrictLoad(after, done, i, s, m);
    PartLoad(r, done + {i}, s, m);
    PartLoad(r, done, s, m);
    PartLoad(after, done + {i}, s, m);
    PartLoad(after, done, s, m);
    assert Load(r, s, m) <= Measured(At(usage, s), m);
    TracksMeasured(u, usage, Restrict(r, done), Restrict(after, done), s, m);
    UnchargeAt(u, r.attempts[i], s);
  }

  lemma {:induction false} RoomForNext(u: map<Slot, Usage>, usage: map<Slot, Usage>, r: Reservation, after: Reservation,
                                       done: set<string>, i: string)
    requires Visited(r, after, done, i) && Movable(usage, r, after)
    requires Tracks(u, usage, Restrict(r, done), Restrict(after, done))
    ensures RoomFor(Uncharge(u, r.attempts[i]), after.attempts[i])
  {
    var aNew := after.attempts[i];
    var off := Uncharge(u, r.attempts[i]);
    SlotsOf(aNew);
    forall s | s in Slots(aNew) ensures Room(At(off, s), aNew.tokens, aNew.cost) {
      RoomAt(u, usage, r, after, done, i, s, Tokens);
      RoomAt(u, usage, r, after, done, i, s, Cost);
    }
  }

  /** The reservation's own totals, one attempt further. */
  lemma {:induction false} TotalsNext(r: Reservation, after: Reservation, done: set<string>, i: string, m: Measure,
                                      total: int, before: int)
    requires Visited(r, after, done, i) && NonNegative(r) && NonNegative(after) && m != Requests
    requires total == Holding(r, m) && InRange(total + Holding(after, m))
    requires before == total - Holding(Restrict(r, done), m) + Holding(Restrict(after, done), m)
    ensures SafeAdd(Max(before - Share(r.attempts[i], m), 0), Share(after.attempts[i], m))
         == total - Holding(Restrict(r, done + {i}), m) + Holding(Restrict(after, done + {i}), m)
  {
    var s := Slot(Key(Principal, ""), 0);
    RestrictLoad(r, done, i, s, m);
    RestrictLoad(after, done, i, s, m);
    PartLoad(r, done + {i}, s, m);
    PartLoad(after, done + {i}, s, m);
    PartLoad(after, done, s, m);
  }

  /** What the loop of a binding has done after the attempts visited so far. */
  ghost predicate MovedSoFar(u: map<Slot, Usage>, tokens: int, cost: int, usage: map<Slot, Usage>, r: Reservation,
                             after: Reservation, done: set<string>)
  {
    Tracks(u, usage, Restrict(r, done), Restrict(after, done)) && Totalled(tokens, cost, r, after, done)
  }

  ghost predicate Totalled(tokens: int, cost: int, r: Reservation, after: Reservation, done: set<string>) {
    && tokens == r.tokens - Holding(Restrict(r, done), Tokens) + Holding(Restrict(after, done), Tokens)
    && cost == r.cost - Holding(Restrict(r, done), Cost) + Holding(Restrict(after, done), Cost)
  }

  lemma {:induction false} TotalledNext(tokens: int, cost: int, r: Reservation, after: Reservation, done: set<string>,
                                        i: string)
    requires Visited(r, after, done, i) && Balanced(r, after) && Totalled(tokens, cost, r, after, done)
    ensures Totalled(SafeAdd(Max(tokens - r.attempts[i].tokens, 0), after.attempts[i].tokens),
                     SafeAdd(Max(cost - r.attempts[i].cost, 0), after.attempts[i].cost), r, after, done + {i})
  {
    TotalsNext(r, after, done, i, Tokens, r.tokens, tokens);
    TotalsNext(r, after, done, i, Cost, r.cost, cost);
  }

  lemma {:induction false} TracksNext(u: map<Slot, Usage>, v: map<Slot, Usage>, usage: map<Slot, Usage>,
                                      r: Reservation, after: Reservation, done: set<string>, i: string)
    requires Visited(r, after, done, i) && Tracks(u, usage, Restrict(r, done), Restrict(after, done))
    requires v == Charge(Uncharge(u, r.attempts[i]), after.attempts[i])
    ensures Tracks(v, usage, Restrict(r, done + {i}), Restrict(after, done + {i}))
  {
    RestrictExtends(r, done, i);
    RestrictExtends(after, done, i);
    TracksMore(u, v, usage, Restrict(r, done), Restrict(r, done + {i}), r.attempts[i],
               Restrict(after, done), Restrict(after, done + {i}), after.attempts[i]);
  }

  lemma {:induction false} MovedOne(u: map<Slot, Usage>, v: map<Slot, Usage>, tokens: int, cost: int,
                                    usage: map<Slot, Usage>,
                                    r: Reservation, after: Reservation, done: set<string>, i: string)
    requires Visited(r, after, done, i) && Balanced(r, after)
    requires MovedSoFar(u, tokens, cost, usage, r, after, done)
    requires v == Charge(Uncharge(u, r.attempts[i]), after.attempts[i])
    ensures MovedSoFar(v, SafeAdd(Max(tokens - r.attempts[i].tokens, 0), after.attempts[i].tokens),
                       SafeAdd(Max(cost - r.attempts[i].cost, 0), after.attempts[i].cost), usage, r, after, done + {i})
  {
    TracksNext(u, v, usage, r, after, done, i);
    TotalledNext(tokens, cost, r, after, done, i);
  }

  lemma {:induction false} SkippedOne(u: map<Slot, Usage>, tokens: int, cost: int, usage: map<Slot, Usage>,
                                      r: Reservation, after: Reservation, done: set<string>, i: string)
    requires i in r.attempts && i in after.attempts && i !in done && !Open(r.attempts[i]) && !Open(after.attempts[i])
    requires MovedSoFar(u, tokens, cost, usage, r, after, done)
    ensures MovedSoFar(u, tokens, cost, usage, r, after, done + {i})
  {
    RestrictExtends(r, done, i);
    RestrictExtends(after, done, i);
    TracksClosed(u, usage, Restrict(r, done), Restrict(r, done + {i}), r.attempts[i],
                 Restrict(after, done), Restrict(after, done + {i}), after.attempts[i]);
    forall m: Measure ensures Holding(Restrict(r, done + {i}), m) == Holding(Restrict(r, done), m)
                           && Holding(Restrict(after, done + {i}), m) == Holding(Restrict(after, done), m)
    {
      RestrictLoad(r, done, i, Slot(Key(Principal, ""), 0), m);
      RestrictLoad(after, done, i, Slot(Key(Principal, ""), 0), m);
    }
  }

  lemma {:induction false} MovedAll(u: map<Slot, Usage>, tokens: int, cost: int, usage: map<Slot, Usage>,
                                    r: Reservation,
                                    upstream: string, keys: seq<Key>, amounts: map<string, Amount>, after: Reservation)
    requires after == ReboundReservation(r, upstream, keys, amounts)
    requires MovedSoFar(u, tokens, cost, usage, r, after, r.attempts.Keys)
    ensures u == Recharge(usage, r, after) && tokens == after.tokens && cost == after.cost
  {
    assert after.attempts.Keys == r.attempts.Keys;
    RestrictAll(r);
    RestrictAll(after);
    RechargeTracks(usage, r, after);
    TracksUnique(u, Recharge(usage, r, after), usage, r, after);
    var moved := r.(attempts := ReboundAttempts(r.attempts, keys, amounts));
    LoadOtherFields(moved, after, Slot(Key(Principal, ""), 0), Tokens);
    LoadOtherFields(moved, after, Slot(Key(Principal, ""), 0), Cost);
  }

  /** One attempt moves to the new keys and amounts. */
  method MoveAttempt(usage: map<Slot, Usage>, a: Attempt, moved: Attempt) returns (u: map<Slot, Usage>)
    ensures NoDuplicates(a.keys) && NoDuplicates(moved.keys) && ChargedBy(usage, a)
      && RoomFor(Uncharge(usage, a), moved)
      ==> u == Charge(Uncharge(usage, a), moved)
  {
    u := UnchargeKeys(usage, a);
    u := ChargeKeys(u, moved);
  }

  method MoveStep(u: map<Slot, Usage>, tokens: int, cost: int, a: Attempt, b: Attempt,
                  ghost usage: map<Slot, Usage>, ghost r: Reservation, ghost after: Reservation,
                  ghost done: set<string>, ghost i: string)
    returns (v: map<Slot, Usage>, t: int, c: int)
    requires Visited(r, after, done, i) && a == r.attempts[i] && b == after.attempts[i]
    ensures Movable(usage, r, after) && MovedSoFar(u, tokens, cost, usage, r, after, done)
      ==> MovedSoFar(v, t, c, usage, r, after, done + {i})
  {
    v := MoveAttempt(u, a, b);
    if Movable(usage, r, after) && MovedSoFar(u, tokens, cost, usage, r, after, done) {
      StillChargedBy(u, usage, r, after, done, i);
      RoomForNext(u, usage, r, after, done, i);
      MovedOne(u, v, tokens, cost, usage, r, after, done, i);
    }
    t, c := SafeAdd(Max(tokens - a.tokens, 0), b.tokens), SafeAdd(Max(cost - a.cost, 0), b.cost);
  }

  /** One attempt of the loop: an open one moves, a closed one is passed over. */
  method VisitAttempt(u: map<Slot, Usage>, tokens: int, cost: int, a: Attempt, i: string, keys: seq<Key>,
                      amounts: map<string, Amount>,
                      ghost usage: map<Slot, Usage>, ghost r: Reservation, ghost after: Reservation,
                      ghost done: set<string>)
    returns (v: map<Slot, Usage>, t: int, c: int, b: Attempt)
    requires i in r.attempts && i !in done && a == r.attempts[i] && r.attempts.Keys == after.attempts.Keys
    requires after.attempts[i] == Rebound(a, keys, AmountOf(amounts, i, a))
    ensures b == after.attempts[i]
    ensures MovedOrInexact(u, tokens, cost, usage, r, after, done) ==>
      MovedOrInexact(v, t, c, usage, r, after, done + {i})
  {
    v, t, c, b := u, tokens, cost, a;
    if Open(a) {
      b := a.(keys := keys);
      if i in amounts { b := b.(tokens := amounts[i].tokens, cost := amounts[i].cost); }
      v, t, c := MoveStep(u, tokens, cost, a, b, usage, r, after, done, i);
    } else if MovedSoFar(u, tokens, cost, usage, r, after, done) {
      SkippedOne(u, tokens, cost, usage, r, after, done, i);
    }
  }

  lemma {:induction false} NothingMoved(usage: map<Slot, Usage>, r: Reservation, after: Reservation, done: set<string>)
    requires done == {}
    ensures MovedOrInexact(usage, r.tokens, r.cost, usage, r, after, done)
  {
    TracksNone(usage, r, after);
  }

  predicate Partly(attempts: map<string, Attempt>, before: map<string, Attempt>, after: map<string, Attempt>,
                   done: set<string>) {
    && attempts.Keys == before.Keys && before.Keys == after.Keys
    && forall j :: j in attempts ==> attempts[j] == if j in done then after[j] else before[j]
  }

  lemma {:induction false} PartlyNext(attempts: map<string, Attempt>, before: map<string, Attempt>,
                                      after: map<string, Attempt>,
                                      done: set<string>, i: string)
    requires Partly(attempts, before, after, done) && i in before
    ensures Partly(attempts[i := after[i]], before, after, done + {i})
  {
  }

  lemma {:induction false} PartlyAll(attempts: map<string, Attempt>, before: map<string, Attempt>,
                                     after: map<string, Attempt>)
    requires Partly(attempts, before, after, before.Keys)
    ensures attempts == after
  {
  }

  ghost predicate MovedOrInexact(u: map<Slot, Usage>, tokens: int, cost: int, usage: map<Slot, Usage>, r: Reservation,
                                 after: Reservation, done: set<string>)
  {
    Movable(usage, r, after) ==> MovedSoFar(u, tokens, cost, usage, r, after, done)
  }

  /** The loop invariant of a binding. */
  ghost predicate Progress(u: map<Slot, Usage>, tokens: int, cost: int, attempts: map<string, Attempt>,
                           usage: map<Slot, Usage>,
                           r: Reservation, after: Reservation, todo: set<string>)
  {
    && todo <= r.attempts.Keys
    && Partly(attempts, r.attempts, after.attempts, r.attempts.Keys - todo)
    && MovedOrInexact(u, tokens, cost, usage, r, after, r.attempts.Keys - todo)
  }

  lemma {:induction false} ProgressStart(usage: map<Slot, Usage>, r: Reservation, after: Reservation)
    requires r.attempts.Keys == after.attempts.Keys
    ensures Progress(usage, r.tokens, r.cost, r.attempts, usage, r, after, r.attempts.Keys)
  {
    NothingMoved(usage, r, after, r.attempts.Keys - r.attempts.Keys);
  }

  lemma {:induction false} ProgressEnd(u: map<Slot, Usage>, tokens: int, cost: int, attempts: map<string, Attempt>,
                                       usage: map<Slot, Usage>, r: Reservation, after: Reservation, todo: set<string>)
    requires Progress(u, tokens, cost, attempts, usage, r, after, todo) && todo == {}
    ensures attempts == after.attempts && MovedOrInexact(u, tokens, cost, usage, r, after, r.attempts.Keys)
  {
    assert r.attempts.Keys - todo == r.attempts.Keys;
    PartlyAll(attempts, r.attempts, after.attempts);
  }

  method ProgressStep(u: map<Slot, Usage>, tokens: int, cost: int, attempts: map<string, Attempt>, todo: set<string>,
                      i: string,
                      keys: seq<Key>, amounts: map<string, Amount>,
                      ghost usage: map<Slot, Usage>, ghost r: Reservation, ghost after: Reservation)
    returns (v: map<Slot, Usage>, t: int, c: int, next: map<string, Attempt>)
    requires Progress(u, tokens, cost, attempts, usage, r, after, todo) && i in todo
    requires after.attempts == ReboundAttempts(r.attempts, keys, amounts)
    ensures Progress(v, t, c, next, usage, r, after, todo - {i})
  {
    ghost var done := r.attempts.Keys - todo;
    var b;
    v, t, c, b := VisitAttempt(u, tokens, cost, attempts[i], i, keys, amounts, usage, r, after, done);
    next := attempts[i := b];
    PartlyNext(attempts, r.attempts, after.attempts, done, i);
    assert r.attempts.Keys - (todo - {i}) == done + {i};
  }

  method MoveLoop(usage: map<Slot, Usage>, r: Reservation, keys: seq<Key>, amounts: map<string, Amount>,
                  ghost after: Reservation)
    returns (u: map<Slot, Usage>, attempts: map<string, Attempt>, tokens: int, cost: int)
    requires after.attempts == ReboundAttempts(r.attempts, keys, amounts)
    ensures attempts == after.attempts
    ensures MovedOrInexact(u, tokens, cost, usage, r, after, r.attempts.Keys)
  {
    attempts, tokens, cost := r.attempts, r.tokens, r.cost;
    u := usage;
    var todo := r.attempts.Keys;
    ProgressStart(usage, r, after);
    while todo != {}
      invariant Progress(u, tokens, cost, attempts, usage, r, after, todo)
      decreases |todo|
    {
      var i :| i in todo;
      u, tokens, cost, attempts := ProgressStep(u, tokens, cost, attempts, todo, i, keys, amounts, usage, r, after);
      todo := todo - {i};
    }
    ProgressEnd(u, tokens, cost, attempts, usage, r, after, todo);
  }

  /** Moves the open attempts of a reservation to new keys and amounts, in any order. */
  method MoveAttempts(usage: map<Slot, Usage>, r: Reservation, upstream: string, keys: seq<Key>,
                      amounts: map<string, Amount>)
    returns (u: map<Slot, Usage>, moved: Reservation)
    ensures var after := ReboundReservation(r, upstream, keys, amounts);
      Movable(usage, r, after) ==> u == Recharge(usage, r, after) && moved == after
  {
    ghost var after := ReboundReservation(r, upstream, keys, amounts);
    var attempts, tokens, cost;
    u, attempts, tokens, cost := MoveLoop(usage, r, keys, amounts, after);
    if Movable(usage, r, after) { MovedAll(u, tokens, cost, usage, r, upstream, keys, amounts, after); }
    moved := r.(attempts := attempts, tokens := tokens, cost := cost, upstream := upstream, keys := keys);
  }
}
