/** Ledger entries in the states they belong to: what the manager only ever writes, and why any
    ledger of such entries, compacted or not, replays to a conserved book. */
module GovernanceProper {
  import opened GovernanceBook
  import opened GovernancePolicy
  import opened JournalLog
  import opened Governance
  import opened GovernanceConservation
  import opened GovernanceReplay

  /** The entry makes sense for what the book holds of its own entity. */
  predicate Proper(b: Book, id: string, e: Event) {
    match e
    case Reserved(principal, _, _, _, _, _, amount, keys) =>
      id !in b.reservations && principal != "" && KeysFor(keys, principal) && amount.tokens >= 0 && amount.cost >= 0
    case AttemptReserved(_, attemptId, _, amount, keys) =>
      id in b.reservations ==> keys == b.reservations[id].keys && amount.tokens >= 0 && amount.cost >= 0
    case Bound(_, _, keys, amounts) =>
      && (id in b.reservations ==> KeysFor(keys, b.reservations[id].principal))
      && (forall i :: i in amounts ==> amounts[i].tokens >= 0 && amounts[i].cost >= 0)
    case UsageRecorded(settlementId, _, _, attemptId, _, _, _, _) => OrFirst(attemptId) == settlementId
    case _ => true
  }

  /** Only the entity's own reservation matters. */
  predicate SameOwn(b: Book, c: Book, id: string) {
    && (id in b.reservations <==> id in c.reservations)
    && (id in b.reservations ==>
          b.reservations[id].keys == c.reservations[id].keys
          && b.reservations[id].principal == c.reservations[id].principal)
  }

  lemma {:induction false} ProperOwn(b: Book, c: Book, id: string, e: Event)
    requires Proper(b, id, e) && SameOwn(b, c, id)
    ensures Proper(c, id, e)
  {}

  lemma {:induction false} AgreeOwn(b: Book, c: Book, id: string)
    requires Agree(b, c)
    ensures SameOwn(b, c, id) && SameOwn(c, b, id)
  {
    if id in b.reservations { assert SameReservation(b.reservations[id], c.reservations[id]); }
  }

  // ---------------------------------------------------------------- conservation under replay

  lemma {:induction false} ReservedConserves(p: Replica, id: string, e: Event)
    requires Conserved(p.book) && e.Reserved? && Proper(p.book, id, e) && ReplayEvent(p, id, e).Some?
    ensures Conserved(ReplayEvent(p, id, e).value.book)
  {
    var adm := Admission(e.principal, e.tenant, e.model, e.upstream);
    NewReservationCanOpen(p.book, id, adm, e.keys, OrFirst(e.attemptId), e.window, e.amount);
    OpenAttemptConserves(p.book, id, NewReservation(adm, e.keys), OrFirst(e.attemptId),
                         NewAttempt(e.window, e.amount, e.keys));
  }

  lemma {:induction false} AttemptConserves(p: Replica, id: string, e: Event)
    requires Conserved(p.book) && e.AttemptReserved? && Proper(p.book, id, e) && ReplayEvent(p, id, e).Some?
    ensures Conserved(ReplayEvent(p, id, e).value.book)
  {
    var r := p.book.reservations[id];
    if e.attemptId !in r.attempts {
      OpenAttemptConserves(p.book, id, r, e.attemptId, NewAttempt(e.window, e.amount, e.keys));
    }
  }

  lemma {:induction false} BoundConserves(p: Replica, id: string, e: Event)
    requires Conserved(p.book) && e.Bound? && Proper(p.book, id, e) && ReplayEvent(p, id, e).Some?
    ensures Conserved(ReplayEvent(p, id, e).value.book)
  {
    var c := Rebind(p.book, id, e.upstream, e.keys, e.amounts);
    RebindConserves(p.book, id, e.upstream, e.keys, e.amounts);
    ReboundKeys(p.book, id, e.upstream, e.keys, e.amounts);
    AgreeItself(c);
    RelabelAgrees(c, c, id, e.keys);
    AgreeConserves(c.(reservations := c.reservations[id := Relabel(c.reservations[id], e.keys)]), c);
  }

  lemma {:induction false} UsageConserves(p: Replica, id: string, e: Event)
    requires Conserved(p.book) && e.UsageRecorded? && Proper(p.book, id, e) && ReplayEvent(p, id, e).Some?
    ensures Conserved(ReplayEvent(p, id, e).value.book)
  {
    if e.settlementId !in p.book.reservations[id].settlements {
      UnsettledIsOpen(p.book, id, e.settlementId);
      SettleConserves(p.book, id, e.settlementId, e.known, e.tokens, e.cost);
    }
  }

  /** Replaying a proper entry keeps a book conserved. */
  lemma {:induction false} ProperConserves(p: Replica, id: string, e: Event)
    requires Conserved(p.book) && Proper(p.book, id, e) && ReplayEvent(p, id, e).Some?
    ensures Conserved(ReplayEvent(p, id, e).value.book)
  {
    match e
    case Reserved(_, _, _, _, _, _, _, _) => ReservedConserves(p, id, e);
    case AttemptReserved(_, _, _, _, _) => AttemptConserves(p, id, e);
    case Bound(_, _, _, _) => BoundConserves(p, id, e);
    case Heartbeat(_) =>
    case UsageRecorded(_, _, _, _, _, _, _, _) => UsageConserves(p, id, e);
    case Released => DropConserves(p.book, id);
    case Reconciled => DropConserves(p.book, id);
  }

  /** Every entry was proper when it was written. */
  ghost predicate ProperLog(log: seq<Item<Event>>) {
    log == [] || (&& ProperLog(log[..|log| - 1]) && Replay(log[..|log| - 1]).Some?
                  && Proper(Replay(log[..|log| - 1]).value.book, log[|log| - 1].entity, log[|log| - 1].payload))
  }

  lemma {:induction false} ProperAppend(log: seq<Item<Event>>, item: Item<Event>)
    requires ProperLog(log) && Replay(log).Some? && Proper(Replay(log).value.book, item.entity, item.payload)
    ensures ProperLog(log + [item])
  {
    assert (log + [item])[..|log|] == log && (log + [item])[|log|] == item;
  }

  /** A ledger of proper entries that can be replayed gives a conserved book. */
  lemma {:induction false} ProperSound(log: seq<Item<Event>>)
    requires ProperLog(log) && Replay(log).Some?
    ensures Sound(log)
  {
    if log == [] {
      EmptySound();
    } else {
      var past, last := log[..|log| - 1], log[|log| - 1];
      ProperSound(past);
      ProperConserves(Replay(past).value, last.entity, last.payload);
    }
  }

  lemma {:induction false} EmptySound()
    ensures Conserved(FRESH.book)
  {
    forall s ensures SlotConserved(FRESH.book, s) {}
  }
}
