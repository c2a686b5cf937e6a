/** When the saturating, clipping arithmetic of the manager is exact: in a conserved book
    nothing is ever clipped, so only a sum beyond int64 makes a difference. */
module GovernanceExact {
  import opened MapSums
  import opened GovernanceBook
  import opened GovernancePolicy
  import opened GovernanceConservation
  import opened GovernanceLoops

  // ---------------------------------------------------------------- when int64 is enough

  predicate RowFits(u: Usage) {
    InRange(u.tokens) && InRange(u.cost) && InRange(u.reservedTokens) && InRange(u.reservedCost)
  }

  /** Every number of the book that the program saturates is an int64. */
  ghost predicate Fits64(b: Book) {
    && (forall s :: RowFits(At(b.usage, s)))
    && (forall id :: id in b.reservations ==> InRange(b.reservations[id].tokens) && InRange(b.reservations[id].cost))
  }

  lemma {:induction false} OpenedFits(b: Book, id: string, r: Reservation, attemptId: string, a: Attempt)
    requires Fits64(OpenAttempt(b, id, r, attemptId, a))
    ensures RoomFor(b.usage, a) && InRange(r.tokens + a.tokens) && InRange(r.cost + a.cost)
  {
    var c := OpenAttempt(b, id, r, attemptId, a);
    SlotsOf(a);
    forall s | s in Slots(a) ensures Room(At(b.usage, s), a.tokens, a.cost) {
      ChargeAt(b.usage, a, s);
      assert RowFits(At(c.usage, s));
    }
    assert c.reservations[id].tokens == r.tokens + a.tokens && c.reservations[id].cost == r.cost + a.cost;
  }

  /** Enters one more attempt of the reservation r in the book. */
  method EnterAttempt(b: Book, id: string, r: Reservation, attemptId: string, a: Attempt) returns (c: Book)
    ensures NoDuplicates(a.keys) && Fits64(OpenAttempt(b, id, r, attemptId, a))
      ==> c == OpenAttempt(b, id, r, attemptId, a)
    ensures id in c.reservations && attemptId in c.reservations[id].attempts
    ensures c.reservations[id].settlements == r.settlements
  {
    if Fits64(OpenAttempt(b, id, r, attemptId, a)) { OpenedFits(b, id, r, attemptId, a); }
    var charged := ChargeKeys(b.usage, a);
    var wider := r.(attempts := r.attempts[attemptId := a], tokens := SafeAdd(r.tokens, a.tokens),
                    cost := SafeAdd(r.cost, a.cost));
    c := Book(charged, b.reservations[id := wider]);
  }

  lemma {:induction false} KeysDistinct(b: Book, id: string)
    requires Conserved(b) && id in b.reservations
    ensures NoDuplicates(b.reservations[id].keys) && GovernanceLoops.Distinct(b.reservations[id])
  {
    var r := b.reservations[id];
    forall i | i in r.attempts && Open(r.attempts[i]) ensures NoDuplicates(r.attempts[i].keys) {
      assert AttemptValid(r.attempts[i], r);
    }
  }

  lemma {:induction false} ConservedCovers(b: Book, id: string)
    requires Conserved(b) && id in b.reservations
    ensures Covered(b.usage, b.reservations[id]) && NonNegative(b.reservations[id])
  {
    var r := b.reservations[id];
    forall s, m ensures Load(r, s, m) <= Measured(At(b.usage, s), m) { NeverClipped(b, id, s); }
    forall i | i in r.attempts ensures r.attempts[i].tokens >= 0 && r.attempts[i].cost >= 0 {
      assert AttemptValid(r.attempts[i], r);
    }
  }

  /** In a conserved book a binding is exact unless its sums overflow. */
  lemma {:induction false} ConservedMoves(b: Book, id: string, upstream: string, keys: seq<Key>,
                                          amounts: map<string, Amount>)
    requires Conserved(b) && id in b.reservations && NoDuplicates(keys)
    requires forall i :: i in amounts ==> amounts[i].tokens >= 0 && amounts[i].cost >= 0
    requires RoomToMove(b.usage, b.reservations[id], ReboundReservation(b.reservations[id], upstream, keys, amounts))
    ensures Movable(b.usage, b.reservations[id], ReboundReservation(b.reservations[id], upstream, keys, amounts))
  {
    ConservedCovers(b, id);
    KeysDistinct(b, id);
    assert ReservationValid(b.reservations[id]);
  }

  lemma {:induction false} HeldAttempt(b: Book, id: string, i: string)
    requires Conserved(b) && id in b.reservations && i in b.reservations[id].attempts
    requires Open(b.reservations[id].attempts[i])
    ensures HeldBy(b.usage, b.reservations[id].attempts[i])
    ensures b.reservations[id].attempts[i].tokens <= b.reservations[id].tokens
    ensures b.reservations[id].attempts[i].cost <= b.reservations[id].cost
  {
    var r := b.reservations[id];
    var a := r.attempts[i];
    SlotsOf(a);
    ConservedCovers(b, id);
    forall s | s in Slots(a) ensures Holds(At(b.usage, s), a.tokens, a.cost) { HeldAt(b, id, i, s); }
    SumAtLeast(r.attempts, OpenShare(Tokens), i);
    SumAtLeast(r.attempts, OpenShare(Cost), i);
  }

  lemma {:induction false} HeldAt(b: Book, id: string, i: string, s: Slot)
    requires Conserved(b) && id in b.reservations && i in b.reservations[id].attempts
    requires NonNegative(b.reservations[id]) && Open(b.reservations[id].attempts[i])
    requires On(b.reservations[id].attempts[i], s)
    ensures Holds(At(b.usage, s), b.reservations[id].attempts[i].tokens, b.reservations[id].attempts[i].cost)
  {
    NeverClipped(b, id, s);
    SumAtLeast(b.reservations[id].attempts, AttemptLoad(s, Tokens), i);
    SumAtLeast(b.reservations[id].attempts, AttemptLoad(s, Cost), i);
  }

  lemma {:induction false} SettledFits(b: Book, id: string, i: string, known: bool, tokens: int, cost: int)
    requires id in b.reservations && i in b.reservations[id].attempts && Open(b.reservations[id].attempts[i])
    requires Fits64(Settle(b, id, i, i, known, tokens, cost)) && tokens >= 0 && cost >= 0
    ensures RoomToUse(Unreserve(b.usage, b.reservations[id].attempts[i]), b.reservations[id].attempts[i], known, tokens,
                      cost)
  {
    var a := b.reservations[id].attempts[i];
    var freed := Unreserve(b.usage, a);
    var next := Settle(b, id, i, i, known, tokens, cost);
    SlotsOf(a);
    if known {
      forall s | s in Slots(a) ensures RoomUsed(At(freed, s), tokens, cost) {
        ConsumeAt(freed, a, known, tokens, cost, s);
        assert RowFits(At(next.usage, s));
      }
    }
  }

  /** What a settlement needs to be exact. */
  lemma {:induction false} SettleReady(b: Book, id: string, i: string, known: bool, tokens: nat, cost: nat)
    requires Conserved(b) && id in b.reservations && i in b.reservations[id].attempts
    requires i !in b.reservations[id].settlements
    requires Fits64(Settle(b, id, i, i, known, tokens, cost))
    ensures var r := b.reservations[id];
      var a := r.attempts[i];
      && Open(a) && HeldBy(b.usage, a) && a.tokens <= r.tokens && a.cost <= r.cost && KeysFor(a.keys, r.principal)
      && RoomToUse(Unreserve(b.usage, a), a, known, tokens, cost)
  {
    UnsettledIsOpen(b, id, i);
    HeldAttempt(b, id, i);
    SettledFits(b, id, i, known, tokens, cost);
    assert ReservationValid(b.reservations[id]);
    assert AttemptValid(b.reservations[id].attempts[i], b.reservations[id]);
  }

  lemma {:induction false} ReleaseReady(b: Book, id: string)
    requires Conserved(b) && id in b.reservations
    ensures Freeable(b.usage, b.reservations[id])
  {
    KeysDistinct(b, id);
    ConservedCovers(b, id);
    var r := b.reservations[id];
    assert ReservationValid(r);
    forall i | i in r.attempts ensures r.attempts[i].released <==> r.attempts[i].settled {
      assert AttemptValid(r.attempts[i], r);
    }
  }

  /** Gives back what an attempt reserved and records what it used. */
  method FreeAndConsume(usage: map<Slot, Usage>, r: Reservation, a: Attempt, known: bool, tokens: nat, cost: nat)
    returns (u: map<Slot, Usage>, leftTokens: int, leftCost: int)
    ensures Open(a) && HeldBy(usage, a) && a.tokens <= r.tokens && a.cost <= r.cost && KeysFor(a.keys, r.principal)
      && RoomToUse(Unreserve(usage, a), a, known, tokens, cost)
      ==> u == Consume(Unreserve(usage, a), a, known, tokens, cost)
          && leftTokens == r.tokens - a.tokens && leftCost == r.cost - a.cost
  {
    u, leftTokens, leftCost := usage, r.tokens, r.cost;
    if !a.released {
      u := FreeKeys(usage, a);
      leftTokens, leftCost := Max(r.tokens - a.tokens, 0), Max(r.cost - a.cost, 0);
    }
    u := ConsumeKeys(u, r.principal, a, known, tokens, cost);
  }

  lemma {:induction false} SettledBook(b: Book, id: string, i: string, known: bool, tokens: nat, cost: nat,
                                       u: map<Slot, Usage>, leftTokens: int, leftCost: int)
    requires id in b.reservations && i in b.reservations[id].attempts && Open(b.reservations[id].attempts[i])
    requires var a := b.reservations[id].attempts[i];
      && u == Consume(Unreserve(b.usage, a), a, known, tokens, cost)
      && leftTokens == b.reservations[id].tokens - a.tokens && leftCost == b.reservations[id].cost - a.cost
    ensures Settle(b, id, i, i, known, tokens, cost)
         == Book(u, b.reservations[id := SettledReservation(b.reservations[id], i, i, cost, leftTokens, leftCost)])
  {
  }

  function SettledReservation(r: Reservation, i: string, settlementId: string, cost: int, leftTokens: int,
                              leftCost: int): Reservation
    requires i in r.attempts
  {
    r.(attempts := r.attempts[i := r.attempts[i].(released := true, settled := true)],
       tokens := leftTokens, cost := leftCost, settlements := r.settlements[settlementId := cost])
  }

  /** One attempt of a reservation is settled. */
  method SettleAttempt(b: Book, id: string, i: string, settlementId: string, known: bool, tokens: nat, cost: nat)
    returns (u: map<Slot, Usage>, settled: Reservation)
    requires id in b.reservations && i in b.reservations[id].attempts && settlementId !in b.reservations[id].settlements
    ensures var next := Settle(b, id, i, i, known, tokens, cost);
      settlementId == i && Conserved(b) && Fits64(next) ==> Book(u, b.reservations[id := settled]) == next
  {
    var r := b.reservations[id];
    var leftTokens, leftCost;
    u, leftTokens, leftCost := FreeAndConsume(b.usage, r, r.attempts[i], known, tokens, cost);
    if settlementId == i && Conserved(b) && Fits64(Settle(b, id, i, i, known, tokens, cost)) {
      SettleReady(b, id, i, known, tokens, cost);
      SettledBook(b, id, i, known, tokens, cost, u, leftTokens, leftCost);
    }
    settled := SettledReservation(r, i, settlementId, cost, leftTokens, leftCost);
  }
}
