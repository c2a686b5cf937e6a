/** The replay loop over the ledger. */
module GovernanceLoad {
  import opened Options
  import opened GovernanceBook
  import opened GovernancePolicy
  import opened JournalLog
  import opened Governance
  import opened GovernanceLoops
  import opened GovernanceExact

  /** Entries as the manager itself writes them. */
  predicate Regular(e: Event) {
    match e
    case Reserved(_, _, _, _, _, _, _, keys) => NoDuplicates(keys)
    case AttemptReserved(_, _, _, _, keys) => NoDuplicates(keys)
    case Bound(_, _, keys, amounts) =>
      NoDuplicates(keys) && forall i :: i in amounts ==> amounts[i].tokens >= 0 && amounts[i].cost >= 0
    case UsageRecorded(settlementId, _, _, attemptId, _, _, _, _) => OrFirst(attemptId) == settlementId
    case _ => true
  }

  /** The entry is replayed within int64 on a conserved book. */
  ghost predicate EventFits(p: Replica, id: string, e: Event) {
    && Conserved(p.book) && Regular(e)
    && (var q := ReplayEvent(p, id, e); q.Some? ==> Fits64(q.value.book))
    && (e.Bound? && id in p.book.reservations ==>
          RoomToMove(p.book.usage, p.book.reservations[id],
                     ReboundReservation(p.book.reservations[id], e.upstream, e.keys, e.amounts)))
  }

  method ReplayReserved(p: Replica, id: string, e: Event) returns (q: Option<Replica>)
    requires e.Reserved?
    ensures EventFits(p, id, e) ==> q == ReplayEvent(p, id, e)
  {
    if e.principal == "" || e.window == ZERO_TIME { return None; }
    var i := OrFirst(e.attemptId);
    var attempt := NewAttempt(e.window, e.amount, e.keys);
    ghost var empty := NewReservation(Admission(e.principal, e.tenant, e.model, e.upstream), e.keys);
    if EventFits(p, id, e) { OpenedFits(p.book, id, empty, i, attempt); }
    var u := ChargeKeys(p.book.usage, attempt);
    var r := Reservation(e.principal, e.tenant, e.upstream, e.model, e.amount.tokens, e.amount.cost, map[], e.keys,
                         map[i := attempt]);
    q := Some(p.(book := Book(u, p.book.reservations[id := r]),
                 counters := p.counters.(admitted := p.counters.admitted + 1)));
  }

  method ReplayAttempt(p: Replica, id: string, e: Event) returns (q: Option<Replica>)
    requires e.AttemptReserved?
    ensures EventFits(p, id, e) ==> q == ReplayEvent(p, id, e)
  {
    if id !in p.book.reservations || e.attemptId == "" || e.window == ZERO_TIME { return None; }
    var r := p.book.reservations[id];
    if e.attemptId in r.attempts { return Some(p); }
    var attempt := NewAttempt(e.window, e.amount, e.keys);
    var book := EnterAttempt(p.book, id, r, e.attemptId, attempt);
    q := Some(p.(book := book));
  }

  /** Every attempt takes the new keys. */
  method RelabelAttempts(r: Reservation, keys: seq<Key>) returns (q: Reservation)
    ensures q == Relabel(r, keys)
  {
    var attempts, todo := r.attempts, r.attempts.Keys;
    while todo != {}
      invariant todo <= r.attempts.Keys && attempts.Keys == r.attempts.Keys
      invariant forall i :: i in attempts ==>
        attempts[i] == if i in todo then r.attempts[i] else r.attempts[i].(keys := keys)
      decreases |todo|
    {
      var i :| i in todo;
      attempts, todo := attempts[i := attempts[i].(keys := keys)], todo - {i};
    }
    q := r.(attempts := attempts);
    assert q.attempts == Relabel(r, keys).attempts;
  }

  lemma {:induction false} BoundEvent(p: Replica, id: string, e: Event, u: map<Slot, Usage>, moved: Reservation)
    requires e.Bound? && id in p.book.reservations && e.upstream != ""
    requires moved == ReboundReservation(p.book.reservations[id], e.upstream, e.keys, e.amounts)
    requires u == Recharge(p.book.usage, p.book.reservations[id], moved)
    ensures ReplayEvent(p, id, e) == Some(p.(book := Book(u, p.book.reservations[id := Relabel(moved, e.keys)])))
  {
    assert p.book.reservations[id := moved][id := Relabel(moved, e.keys)]
         == p.book.reservations[id := Relabel(moved, e.keys)];
  }

  method ReplayBound(p: Replica, id: string, e: Event) returns (q: Option<Replica>)
    requires e.Bound?
    ensures EventFits(p, id, e) ==> q == ReplayEvent(p, id, e)
  {
    if id !in p.book.reservations || e.upstream == "" { return None; }
    var u, moved := MoveAttempts(p.book.usage, p.book.reservations[id], e.upstream, e.keys, e.amounts);
    if EventFits(p, id, e) {
      ConservedMoves(p.book, id, e.upstream, e.keys, e.amounts);
      BoundEvent(p, id, e, u, moved);
    }
    var relabelled := RelabelAttempts(moved, e.keys);
    q := Some(p.(book := Book(u, p.book.reservations[id := relabelled])));
  }

  method ReplayUsage(p: Replica, id: string, e: Event) returns (q: Option<Replica>)
    requires e.UsageRecorded?
    ensures EventFits(p, id, e) ==> q == ReplayEvent(p, id, e)
  {
    if id !in p.book.reservations || e.settlementId == "" || e.principal != p.book.reservations[id].principal {
      return None;
    }
    if e.settlementId in p.book.reservations[id].settlements { return Some(p); }
    var i := OrFirst(e.attemptId);
    if i !in p.book.reservations[id].attempts { return None; }
    var u, settled := SettleAttempt(p.book, id, i, e.settlementId, e.known, e.tokens, e.cost);
    q := Some(Replica(Book(u, p.book.reservations[id := settled]),
                      if e.known then NextEstimate(p.estimates, e.model, e.tokens, e.cost) else p.estimates,
                      Counted(p.counters, e.known)));
  }

  /** A reservation is closed and forgotten. */
  method CloseReservation(b: Book, id: string) returns (c: Book)
    ensures Conserved(b) ==> c == Drop(b, id)
  {
    if id !in b.reservations { return b; }
    if Conserved(b) { ReleaseReady(b, id); }
    var u := FreeAttempts(b.usage, b.reservations[id]);
    c := Book(u, b.reservations - {id});
  }

  method ReplayOne(p: Replica, id: string, e: Event) returns (q: Option<Replica>)
    ensures EventFits(p, id, e) ==> q == ReplayEvent(p, id, e)
  {
    match e {
      case Reserved(_, _, _, _, _, _, _, _) => q := ReplayReserved(p, id, e);
      case AttemptReserved(_, _, _, _, _) => q := ReplayAttempt(p, id, e);
      case Bound(_, _, _, _) => q := ReplayBound(p, id, e);
      case Heartbeat(principal) => q := if id !in p.book.reservations || principal == "" then None else Some(p);
      case UsageRecorded(_, _, _, _, _, _, _, _) => q := ReplayUsage(p, id, e);
      case Released => var closed := CloseReservation(p.book, id); q := Some(p.(book := closed));
      case Reconciled => var closed := CloseReservation(p.book, id); q := Some(p.(book := closed));
    }
  }

  /** Every entry of the ledger is replayed within int64 on a conserved book. */
  ghost predicate LedgerFits(log: seq<Item<Event>>) {
    forall n :: 0 <= n < |log| && Replay(log[..n]).Some? ==> EventFits(Replay(log[..n]).value, log[n].entity,
                                                                       log[n].payload)
  }

  lemma {:induction false} ReplayNext(log: seq<Item<Event>>, n: nat)
    requires n < |log| && Replay(log[..n]).Some?
    ensures Replay(log[..n + 1]) == ReplayEvent(Replay(log[..n]).value, log[n].entity, log[n].payload)
  {
    assert log[..n + 1][..n] == log[..n];
  }

  lemma {:induction false} ReplayStuck(log: seq<Item<Event>>, n: nat)
    requires n <= |log| && Replay(log[..n]).None?
    ensures Replay(log).None?
    decreases |log| - n
  {
    if n < |log| {
      assert log[..n + 1][..n] == log[..n];
      ReplayStuck(log, n + 1);
    } else {
      assert log[..n] == log;
    }
  }

  /** The replay of a whole ledger. */
  method ReplayLedger(log: seq<Item<Event>>) returns (q: Option<Replica>)
    ensures LedgerFits(log) ==> q == Replay(log)
  {
    var p := FRESH;
    ghost var exact := LedgerFits(log);
    for n := 0 to |log|
      invariant exact ==> Replay(log[..n]) == Some(p)
    {
      var next := ReplayOne(p, log[n].entity, log[n].payload);
      if exact { ReplayNext(log, n); }
      if next.None? {
        if exact { ReplayStuck(log, n + 1); }
        return None;
      }
      p := next.value;
    }
    assert log[..|log|] == log;
    q := Some(p);
  }

  /** Replay writes nothing, so it counts no failed writes. */
  lemma {:induction false} ReplayWritesNothing(log: seq<Item<Event>>)
    ensures Replay(log).Some? ==> Replay(log).value.counters.persistenceFailures == 0
  {
    if log != [] { ReplayWritesNothing(log[..|log| - 1]); }
  }
}
