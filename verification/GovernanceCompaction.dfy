/** Replay of a compacted ledger. */
module GovernanceCompaction {
  import opened MapSums
  import opened GovernanceBook
  import opened GovernancePolicy
  import opened JournalLog
  import opened Governance
  import opened GovernanceReplay

  /** An entry is not dated before the window it charges. */
  predicate Dated(item: Item<Event>) {
    match item.payload
    case Reserved(_, _, _, _, _, window, _, _) => window <= item.time
    case AttemptReserved(_, _, window, _, _) => window <= item.time
    case _ => true
  }

  predicate Early(r: Reservation, cutoff: int) {
    forall i :: i in r.attempts ==> r.attempts[i].window < cutoff
  }

  ghost predicate SameLate(u: map<Slot, Usage>, v: map<Slot, Usage>, cutoff: int) {
    forall s: Slot :: s.window >= cutoff ==> At(u, s) == At(v, s)
  }

  /** q is p without the entities outside kept, which only charged windows before the cutoff. */
  ghost predicate Restricts(p: Book, q: Book, kept: set<string>, cutoff: int) {
    && (forall id :: id in q.reservations <==> id in p.reservations && id in kept)
    && (forall id :: id in q.reservations ==> q.reservations[id] == p.reservations[id])
    && (forall id :: id in p.reservations && id !in kept ==> Early(p.reservations[id], cutoff))
    && SameLate(p.usage, q.usage, cutoff)
  }

  // ---------------------------------------------------------------- an entity that is kept

  lemma {:induction false} KeptOpen(p: Book, q: Book, kept: set<string>, cutoff: int, id: string, r: Reservation,
                                    i: string, a: Attempt)
    requires Restricts(p, q, kept, cutoff) && id in kept
    ensures Restricts(OpenAttempt(p, id, r, i, a), OpenAttempt(q, id, r, i, a), kept, cutoff)
  {
    forall s: Slot | s.window >= cutoff ensures At(Charge(p.usage, a), s) == At(Charge(q.usage, a), s) {
      ChargeAt(p.usage, a, s);
      ChargeAt(q.usage, a, s);
    }
  }

  lemma {:induction false} KeptRecharge(u: map<Slot, Usage>, v: map<Slot, Usage>, cutoff: int, r: Reservation,
                                        after: Reservation)
    requires SameLate(u, v, cutoff)
    ensures SameLate(Recharge(u, r, after), Recharge(v, r, after), cutoff)
  {
    forall s: Slot | s.window >= cutoff ensures At(Recharge(u, r, after), s) == At(Recharge(v, r, after), s) {
      RechargeAt(u, r, after, s);
      RechargeAt(v, r, after, s);
    }
  }

  lemma {:induction false} KeptSettle(p: Book, q: Book, kept: set<string>, cutoff: int, id: string, i: string,
                                      settlement: string,
                                      known: bool, tokens: int, cost: int)
    requires Restricts(p, q, kept, cutoff) && id in kept && id in p.reservations && i in p.reservations[id].attempts
    ensures Restricts(Settle(p, id, i, settlement, known, tokens, cost),
                      Settle(q, id, i, settlement, known, tokens, cost), kept, cutoff)
  {
    var a := p.reservations[id].attempts[i];
    var u, v := if a.released then p.usage else Unreserve(p.usage, a),
                if a.released then q.usage else Unreserve(q.usage, a);
    assert SameLate(u, v, cutoff) by { KeptUnreserve(p.usage, q.usage, cutoff, a); }
    KeptConsume(u, v, cutoff, a, known, tokens, cost);
  }

  lemma {:induction false} KeptUnreserve(u: map<Slot, Usage>, v: map<Slot, Usage>, cutoff: int, a: Attempt)
    requires SameLate(u, v, cutoff)
    ensures SameLate(Unreserve(u, a), Unreserve(v, a), cutoff)
  {
    forall s: Slot | s.window >= cutoff ensures At(Unreserve(u, a), s) == At(Unreserve(v, a), s) {
      UnreserveAt(u, a, s);
      UnreserveAt(v, a, s);
    }
  }

  lemma {:induction false} KeptConsume(u: map<Slot, Usage>, v: map<Slot, Usage>, cutoff: int, a: Attempt, known: bool,
                                       tokens: int, cost: int)
    requires SameLate(u, v, cutoff)
    ensures SameLate(Consume(u, a, known, tokens, cost), Consume(v, a, known, tokens, cost), cutoff)
  {
    forall s: Slot | s.window >= cutoff
      ensures At(Consume(u, a, known, tokens, cost), s) == At(Consume(v, a, known, tokens, cost), s)
    {
      ConsumeAt(u, a, known, tokens, cost, s);
      ConsumeAt(v, a, known, tokens, cost, s);
    }
  }

  lemma {:induction false} KeptDrop(p: Book, q: Book, kept: set<string>, cutoff: int, id: string)
    requires Restricts(p, q, kept, cutoff) && id in kept
    ensures Restricts(Drop(p, id), Drop(q, id), kept, cutoff)
  {
    if id in p.reservations {
      var r := p.reservations[id];
      forall s: Slot | s.window >= cutoff ensures At(UnreserveAll(p.usage, r), s) == At(UnreserveAll(q.usage, r), s) {
        UnreserveAllAt(p.usage, r, s);
        UnreserveAllAt(q.usage, r, s);
      }
    }
  }

  lemma {:induction false} KeptBound(p: Book, q: Book, kept: set<string>, cutoff: int, id: string, upstream: string,
                                     keys: seq<Key>, amounts: map<string, Amount>)
    requires Restricts(p, q, kept, cutoff) && id in kept && id in p.reservations
    ensures var c, d := Rebind(p, id, upstream, keys, amounts), Rebind(q, id, upstream, keys, amounts);
      Restricts(c.(reservations := c.reservations[id := Relabel(c.reservations[id], keys)]),
                d.(reservations := d.reservations[id := Relabel(d.reservations[id], keys)]), kept, cutoff)
  {
    var r := p.reservations[id];
    KeptRecharge(p.usage, q.usage, cutoff, r, ReboundReservation(r, upstream, keys, amounts));
  }

  /** An event of a kept entity is replayed alike with and without the dropped ones. */
  lemma {:induction false} KeptEvent(p: Replica, q: Replica, kept: set<string>, cutoff: int, id: string, event: Event)
    requires Restricts(p.book, q.book, kept, cutoff) && id in kept && ReplayEvent(p, id, event).Some?
    ensures ReplayEvent(q, id, event).Some?
    ensures Restricts(ReplayEvent(p, id, event).value.book, ReplayEvent(q, id, event).value.book, kept, cutoff)
  {
    match event
    case Reserved(principal, tenant, upstream, model, attemptId, window, amount, keys) =>
      KeptOpen(p.book, q.book, kept, cutoff, id, NewReservation(Admission(principal, tenant, model, upstream), keys),
               OrFirst(attemptId), NewAttempt(window, amount, keys));
    case AttemptReserved(_, attemptId, window, amount, keys) =>
      KeptOpen(p.book, q.book, kept, cutoff, id, p.book.reservations[id], attemptId, NewAttempt(window, amount, keys));
    case Bound(_, upstream, keys, amounts) => KeptBound(p.book, q.book, kept, cutoff, id, upstream, keys, amounts);
    case Heartbeat(_) =>
    case UsageRecorded(settlementId, principal, model, attemptId, window, known, tokens, cost) =>
      if settlementId !in p.book.reservations[id].settlements {
        KeptSettle(p.book, q.book, kept, cutoff, id, OrFirst(attemptId), settlementId, known, tokens, cost);
      }
    case Released => KeptDrop(p.book, q.book, kept, cutoff, id);
    case Reconciled => KeptDrop(p.book, q.book, kept, cutoff, id);
  }

  // ---------------------------------------------------------------- an entity that is dropped

  lemma {:induction false} EarlyLoad(r: Reservation, cutoff: int, s: Slot, m: Measure)
    requires Early(r, cutoff) && s.window >= cutoff
    ensures Load(r, s, m) == 0
  {
    SumZero(r.attempts, AttemptLoad(s, m));
  }

  /** Events of a dropped entity leave later windows and other entities alone. */
  ghost predicate LocalEarly(p: Book, c: Book, id: string, cutoff: int) {
    && (forall other :: other != id ==> (other in c.reservations <==> other in p.reservations))
    && (forall other :: other != id && other in p.reservations ==> c.reservations[other] == p.reservations[other])
    && (id in c.reservations ==> Early(c.reservations[id], cutoff))
    && SameLate(p.usage, c.usage, cutoff)
  }

  lemma {:induction false} DroppedOpen(p: Book, cutoff: int, id: string, r: Reservation, i: string, a: Attempt)
    requires Early(r, cutoff) && a.window < cutoff
    ensures LocalEarly(p, OpenAttempt(p, id, r, i, a), id, cutoff)
  {
    forall s: Slot | s.window >= cutoff ensures At(Charge(p.usage, a), s) == At(p.usage, s) { ChargeAt(p.usage, a, s); }
  }

  lemma {:induction false} DroppedRecharge(u: map<Slot, Usage>, cutoff: int, r: Reservation, after: Reservation)
    requires Early(r, cutoff) && Early(after, cutoff)
    ensures SameLate(u, Recharge(u, r, after), cutoff)
  {
    forall s: Slot | s.window >= cutoff ensures At(Recharge(u, r, after), s) == At(u, s) {
      RechargeAt(u, r, after, s);
      forall m: Measure ensures Load(r, s, m) == 0 && Load(after, s, m) == 0 {
        EarlyLoad(r, cutoff, s, m);
        EarlyLoad(after, cutoff, s, m);
      }
    }
  }

  lemma {:induction false} DroppedSettle(p: Book, cutoff: int, id: string, i: string, settlement: string, known: bool,
                                         tokens: int, cost: int)
    requires id in p.reservations && i in p.reservations[id].attempts && Early(p.reservations[id], cutoff)
    ensures LocalEarly(p, Settle(p, id, i, settlement, known, tokens, cost), id, cutoff)
  {
    var a := p.reservations[id].attempts[i];
    var u := if a.released then p.usage else Unreserve(p.usage, a);
    forall s: Slot | s.window >= cutoff ensures At(Consume(u, a, known, tokens, cost), s) == At(p.usage, s) {
      UnreserveAt(p.usage, a, s);
      ConsumeAt(u, a, known, tokens, cost, s);
    }
  }

  lemma {:induction false} DroppedDrop(p: Book, cutoff: int, id: string)
    requires id in p.reservations ==> Early(p.reservations[id], cutoff)
    ensures LocalEarly(p, Drop(p, id), id, cutoff)
  {
    if id in p.reservations {
      var r := p.reservations[id];
      forall s: Slot | s.window >= cutoff ensures At(UnreserveAll(p.usage, r), s) == At(p.usage, s) {
        UnreserveAllAt(p.usage, r, s);
        EarlyLoad(r, cutoff, s, Tokens);
        EarlyLoad(r, cutoff, s, Cost);
      }
    }
  }

  lemma {:induction false} DroppedEvent(p: Replica, cutoff: int, item: Item<Event>)
    requires Dated(item) && item.time < cutoff && ReplayEvent(p, item.entity, item.payload).Some?
    requires item.entity in p.book.reservations ==> Early(p.book.reservations[item.entity], cutoff)
    ensures LocalEarly(p.book, ReplayEvent(p, item.entity, item.payload).value.book, item.entity, cutoff)
  {
    var id := item.entity;
    match item.payload
    case Reserved(principal, tenant, upstream, model, attemptId, window, amount, keys) =>
      DroppedOpen(p.book, cutoff, id, NewReservation(Admission(principal, tenant, model, upstream), keys),
                  OrFirst(attemptId), NewAttempt(window, amount, keys));
    case AttemptReserved(_, attemptId, window, amount, keys) =>
      DroppedOpen(p.book, cutoff, id, p.book.reservations[id], attemptId, NewAttempt(window, amount, keys));
    case Bound(_, upstream, keys, amounts) =>
      var r := p.book.reservations[id];
      DroppedRecharge(p.book.usage, cutoff, r, ReboundReservation(r, upstream, keys, amounts));
    case Heartbeat(_) =>
    case UsageRecorded(settlementId, principal, model, attemptId, window, known, tokens, cost) =>
      if settlementId !in p.book.reservations[id].settlements {
        DroppedSettle(p.book, cutoff, id, OrFirst(attemptId), settlementId, known, tokens, cost);
      }
    case Released => DroppedDrop(p.book, cutoff, id);
    case Reconciled => DroppedDrop(p.book, cutoff, id);
  }

  lemma {:induction false} DroppedRestricts(p: Book, c: Book, q: Book, kept: set<string>, cutoff: int, id: string)
    requires Restricts(p, q, kept, cutoff) && id !in kept && LocalEarly(p, c, id, cutoff)
    ensures Restricts(c, q, kept, cutoff)
  {}

  // ---------------------------------------------------------------- whole ledgers

  lemma {:induction false} OnlyReplays(log: seq<Item<Event>>, kept: set<string>, cutoff: int)
    requires Replay(log).Some? && forall i :: 0 <= i < |log| ==> Dated(log[i])
    requires forall i :: 0 <= i < |log| && log[i].entity !in kept ==> log[i].time < cutoff
    ensures Replay(Only(log, kept)).Some?
    ensures Restricts(Replay(log).value.book, Replay(Only(log, kept)).value.book, kept, cutoff)
  {
    if log != [] {
      var n := |log| - 1;
      var before, item := log[..n], log[n];
      OnlyReplays(before, kept, cutoff);
      var p, q := Replay(before).value, Replay(Only(before, kept)).value;
      if item.entity in kept {
        KeptEvent(p, q, kept, cutoff, item.entity, item.payload);
        ReplayAppend(Only(before, kept), item);
      } else {
        DroppedEvent(p, cutoff, item);
        DroppedRestricts(p.book, Replay(log).value.book, q.book, kept, cutoff, item.entity);
      }
    }
  }

  /** Compaction is replay-safe: the compacted ledger replays, the surviving reservations are
      exactly as they were, and usage is unchanged in every window from the cutoff on. */
  lemma {:induction false} CompactedReplays(log: seq<Item<Event>>, cutoff: int, s: Slot, id: string)
    requires Replay(log).Some? && forall i :: 0 <= i < |log| ==> Dated(log[i])
    ensures Replay(Compacted(log, cutoff, {})).Some?
    ensures var p, q := Replay(log).value.book, Replay(Compacted(log, cutoff, {})).value.book;
      && (s.window >= cutoff ==> At(q.usage, s) == At(p.usage, s))
      && (id in q.reservations <==> id in p.reservations && Survives(log, cutoff, {}, id))
      && (id in q.reservations ==> q.reservations[id] == p.reservations[id])
  {
    var kept := {} + Recent(log, cutoff);
    assert forall i :: 0 <= i < |log| && log[i].time >= cutoff ==> log[i].entity in Recent(log, cutoff);
    OnlyReplays(log, kept, cutoff);
  }
}
