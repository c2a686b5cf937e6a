/** The governance manager as a state machine, its ledger, and the replay of that ledger. */
module Governance {
  import opened Options
  import opened GovernanceBook
  import opened GovernancePolicy
  import opened JournalLog
  import Glob

  datatype Event =
    | Reserved(principal: string, tenant: string, upstream: string, model: string, attemptId: string,
               window: int, amount: Amount, keys: seq<Key>)
    | AttemptReserved(principal: string, attemptId: string, window: int, amount: Amount, keys: seq<Key>)
    | Bound(principal: string, upstream: string, keys: seq<Key>, amounts: map<string, Amount>)
    | Heartbeat(principal: string)
    | UsageRecorded(settlementId: string, principal: string, model: string, attemptId: string,
                    window: int, known: bool, tokens: nat, cost: nat)
    | Released
    | Reconciled

  datatype Counters = Counters(admitted: nat, settlements: nat, known: nat, unknown: nat,
                               reconciled: nat, persistenceFailures: nat)

  datatype Gov = Gov(config: Config, book: Book, estimates: map<string, Estimate>,
                     counters: Counters, ledger: seq<Item<Event>>, journalUp: bool, running: bool)

  datatype Outcome = Done | Refused(verdict: Verdict) | Invalid | Duplicate | Closed
                   | TenantMissing | LedgerUnavailable

  const FIRST_ATTEMPT := "attempt-1"

  /** Unix seconds of Go's zero time. */
  const ZERO_TIME := -62135596800

  const MAX_ID := 128

  const NO_COUNTS := Counters(0, 0, 0, 0, 0, 0)

  /** Windows are the minutes of the clock. */
  function WindowOf(now: nat): (w: int)
    ensures 0 <= w <= now < w + 60 && w % 60 == 0
  {
    now / 60 * 60
  }

  predicate ValidId(id: string) { id != "" && |id| <= MAX_ID }

  function Normalize(adm: Admission): (r: Admission)
    ensures r.principal != ""
  {
    var p := Glob.Trim(adm.principal);
    Admission(if p == "" then "anonymous" else p, Glob.Trim(adm.tenant), Glob.Trim(adm.model), Glob.Trim(adm.upstream))
  }

  /** White space around the parts of an admission does not matter; a missing principal is called anonymous. */
  lemma {:induction false} NormalizeTrims(adm: Admission)
    ensures var r := Normalize(adm);
      && (if Glob.AllSpace(adm.principal) then r.principal == "anonymous" else Glob.IsTrimOf(r.principal, adm.principal))
      && Glob.IsTrimOf(r.tenant, adm.tenant) && Glob.IsTrimOf(r.model, adm.model)
      && Glob.IsTrimOf(r.upstream, adm.upstream)
  {
    Glob.TrimIsTrim(adm.tenant);
    Glob.TrimIsTrim(adm.model);
    Glob.TrimIsTrim(adm.upstream);
    Glob.TrimIsTrim(adm.principal);
    Glob.TrimEmpty(adm.principal);
  }

  predicate TenantRequired(cfg: Config) {
    exists i :: 0 <= i < |cfg.budgets| && cfg.budgets[i].scope.Tenant?
  }

  /** Whether an append goes through: after a failure the journal refuses all others until
      the process is restarted. */
  predicate Accepts(g: Gov, ok: bool) { g.journalUp && ok }

  /** An append that fails leaves the ledger as it was, is counted and degrades the journal. */
  function Append(g: Gov, now: int, id: string, event: Event, ok: bool): Gov {
    if Accepts(g, ok) then g.(ledger := g.ledger + [Item(now, id, event)])
    else g.(counters := g.counters.(persistenceFailures := g.counters.persistenceFailures + 1), journalUp := false)
  }

  function NewReservation(adm: Admission, keys: seq<Key>): Reservation {
    Reservation(adm.principal, adm.tenant, adm.upstream, adm.model, 0, 0, map[], keys, map[])
  }

  function NewAttempt(window: int, amount: Amount, keys: seq<Key>): Attempt {
    Attempt(window, amount.tokens, amount.cost, false, false, keys)
  }

  function AdmissionOf(r: Reservation): Admission { Admission(r.principal, r.tenant, r.model, r.upstream) }

  // ---------------------------------------------------------------- live operations

  /** Done when an admission may be entered. */
  ghost function AdmitVerdict(g: Gov, id: string, adm: Admission, window: int, keys: seq<Key>, amount: Amount,
                        healthy: bool): Outcome {
    if !ValidId(id) then Invalid
    else if g.config.enforce && TenantRequired(g.config) && adm.tenant == "" then TenantMissing
    else if id in g.book.reservations then Duplicate
    else if g.config.enforce && !Accepts(g, healthy) then LedgerUnavailable
    else
      var verdict := JudgeAttempts(g.config, g.book, id, window, keys, amount, |keys|);
      if verdict == Fits then Done else Refused(verdict)
  }

  /** What an admission does once it has been allowed. */
  ghost function EnterStep(g: Gov, id: string, adm: Admission, window: int, keys: seq<Key>, amount: Amount, now: nat,
                           ok: bool): (Gov, Outcome) {
    var h := Append(g, now, id, Reserved(adm.principal, adm.tenant, adm.upstream, adm.model, FIRST_ATTEMPT, window,
                                         amount, keys), ok);
    if !Accepts(g, ok) && g.config.enforce then (h, LedgerUnavailable)
    else (h.(book := OpenAttempt(g.book, id, NewReservation(adm, keys), FIRST_ATTEMPT,
                                 NewAttempt(window, amount, keys)),
             counters := h.counters.(admitted := h.counters.admitted + 1)), Done)
  }

  ghost function AdmitStep(g: Gov, rawId: string, raw: Admission, now: nat, healthy: bool, ok: bool): (Gov, Outcome) {
    var id, adm := Glob.Trim(rawId), Normalize(raw);
    var keys := BudgetKeys(g.config, adm);
    var amount := Amounts(g.config, g.estimates, adm.model, keys);
    var verdict := AdmitVerdict(g, id, adm, WindowOf(now), keys, amount, healthy);
    if verdict != Done then (g, verdict) else EnterStep(g, id, adm, WindowOf(now), keys, amount, now, ok)
  }

  function BindingAmounts(r: Reservation, amount: Amount): map<string, Amount> {
    map i | i in r.attempts && Open(r.attempts[i]) :: amount
  }

  /** The keys of a reservation once it is bound to the given upstream, and what each of its open
      attempts then holds. */
  function BindingKeys(g: Gov, id: string, raw: string): seq<Key>
    requires id in g.book.reservations
  {
    BudgetKeys(g.config, AdmissionOf(g.book.reservations[id]).(upstream := Glob.Trim(raw)))
  }

  function BindingAmount(g: Gov, id: string, raw: string): Amount
    requires id in g.book.reservations
  {
    Amounts(g.config, g.estimates, g.book.reservations[id].model, BindingKeys(g, id, raw))
  }

  ghost function BindStep(g: Gov, id: string, raw: string, now: nat, ok: bool): (Gov, Outcome) {
    var upstream := Glob.Trim(raw);
    if !ValidId(upstream) then (g, Invalid)
    else if id !in g.book.reservations then (g, Closed)
    else
      var r := g.book.reservations[id];
      var keys, amount := BindingKeys(g, id, raw), BindingAmount(g, id, raw);
      var verdict := JudgeBindings(g.config, g.book, id, WindowOf(now), keys, amount, |keys|);
      if r.upstream == upstream then (g, Done)
      else if verdict != Fits then (g, Refused(verdict))
      else
        var h := Append(g, now, id, Bound(r.principal, upstream, keys, BindingAmounts(r, amount)), ok);
        if !Accepts(g, ok) && g.config.enforce then (h, LedgerUnavailable)
        else (h.(book := Rebind(g.book, id, upstream, keys, BindingAmounts(r, amount))), Done)
  }

  ghost function OpenStep(g: Gov, id: string, attemptId: string, now: nat, ok: bool): (Gov, Outcome)
    requires id in g.book.reservations
  {
    var r := g.book.reservations[id];
    var window := WindowOf(now);
    var amount := Amounts(g.config, g.estimates, r.model, r.keys);
    var verdict := JudgeAttempts(g.config, g.book, id, window, r.keys, amount, |r.keys|);
    if verdict != Fits then (g, Refused(verdict))
    else
      var h := Append(g, now, id, AttemptReserved(r.principal, attemptId, window, amount, r.keys), ok);
      if !Accepts(g, ok) && g.config.enforce then (h, LedgerUnavailable)
      else (h.(book := OpenAttempt(g.book, id, r, attemptId, NewAttempt(window, amount, r.keys))), Done)
  }

  ghost function BeginStep(g: Gov, id: string, raw: string, now: nat, ok: bool): (Gov, Outcome) {
    var attemptId := Glob.Trim(raw);
    if !ValidId(attemptId) then (g, Invalid)
    else if id !in g.book.reservations then (g, Closed)
    else
      var r := g.book.reservations[id];
      if attemptId in r.attempts then (g, if Open(r.attempts[attemptId]) then Done else Duplicate)
      else OpenStep(g, id, attemptId, now, ok)
  }

  function Counted(c: Counters, known: bool): Counters {
    c.(settlements := c.settlements + 1, known := c.known + (if known then 1 else 0),
       unknown := c.unknown + (if known then 0 else 1))
  }

  /** The settlement proper, once the attempt exists. */
  ghost function SettleStep(g: Gov, id: string, settlementId: string, usage: Reported, now: nat,
                            ok: bool): (Gov, Outcome)
    requires ReportedInRange(usage)
    requires id in g.book.reservations && settlementId in g.book.reservations[id].attempts
  {
    var r := g.book.reservations[id];
    var a := r.attempts[settlementId];
    var tokens, cost := UsageTotal(usage), UsageCost(g.config, r.model, usage);
    var h := Append(g, now, id, UsageRecorded(settlementId, r.principal, r.model, settlementId, a.window,
                                              usage.known, tokens, cost), ok);
    if !Accepts(g, ok) && g.config.enforce then (h, LedgerUnavailable)
    else (h.(book := Settle(g.book, id, settlementId, settlementId, usage.known, tokens, cost),
             estimates := if usage.known then NextEstimate(g.estimates, r.model, tokens, cost) else g.estimates,
             counters := Counted(h.counters, usage.known)), Done)
  }

  /** A settlement for an unknown attempt first reserves that attempt. */
  ghost function RecordStep(g: Gov, id: string, raw: string, usage: Reported, now: nat, okOpen: bool,
                            ok: bool): (Gov, Outcome)
    requires ReportedInRange(usage)
  {
    var settlementId := Glob.Trim(raw);
    if !ValidId(settlementId) then (g, Invalid)
    else if id !in g.book.reservations then (g, Closed)
    else if settlementId in g.book.reservations[id].settlements then (g, Done)
    else if settlementId in g.book.reservations[id].attempts then SettleStep(g, id, settlementId, usage, now, ok)
    else
      var (h, outcome) := OpenStep(g, id, settlementId, now, okOpen);
      if outcome != Done then (h, outcome) else SettleStep(h, id, settlementId, usage, now, ok)
  }

  ghost function ReleaseStep(g: Gov, id: string, now: nat, ok: bool): (Gov, Outcome) {
    if id !in g.book.reservations then (g, Done)
    else
      var h := Append(g, now, id, Released, ok);
      if !Accepts(g, ok) && g.config.enforce then (h, LedgerUnavailable)
      else (h.(book := Drop(g.book, id)), Done)
  }

  /** Written for every reservation with an open attempt before the ledger is compacted. */
  ghost function HeartbeatStep(g: Gov, id: string, now: nat, ok: bool): Gov {
    if id in g.book.reservations && HasOpen(g.book.reservations[id])
    then Append(g, now, id, Heartbeat(g.book.reservations[id].principal), ok)
    else g
  }

  /** The heartbeats of a compaction, in the order of a map iteration; a position before good
      means that the journal can be written. */
  ghost function BeatEach(g: Gov, order: seq<string>, now: nat, good: nat): Gov {
    if order == [] then g else
      var n := |order| - 1;
      HeartbeatStep(BeatEach(g, order[..n], now, good), order[n], now, n < good)
  }

  /** The heartbeats allow the compaction: in enforce mode none of them may have failed. */
  ghost predicate Compacts(g: Gov, beaten: Gov) {
    || !g.config.enforce || beaten.journalUp
    || forall id :: id in g.book.reservations ==> !HasOpen(g.book.reservations[id])
  }

  // ---------------------------------------------------------------- replay

  datatype Replica = Replica(book: Book, estimates: map<string, Estimate>, counters: Counters)

  const FRESH := Replica(Book(map[], map[]), map[], NO_COUNTS)

  /** Bindings are replayed with the new keys on every attempt, closed ones included. */
  function Relabel(r: Reservation, keys: seq<Key>): Reservation {
    r.(attempts := map i | i in r.attempts :: r.attempts[i].(keys := keys))
  }

  function OrFirst(attemptId: string): string { if attemptId == "" then FIRST_ATTEMPT else attemptId }

  ghost function ReplayEvent(p: Replica, id: string, event: Event): Option<Replica> {
    var b := p.book;
    match event
    case Reserved(principal, tenant, upstream, model, attemptId, window, amount, keys) =>
      if principal == "" || window == ZERO_TIME then None else
        var r := NewReservation(Admission(principal, tenant, model, upstream), keys);
        Some(p.(book := OpenAttempt(b, id, r, OrFirst(attemptId), NewAttempt(window, amount, keys)),
                counters := p.counters.(admitted := p.counters.admitted + 1)))
    case AttemptReserved(principal, attemptId, window, amount, keys) =>
      if id !in b.reservations || attemptId == "" || window == ZERO_TIME then None
      else if attemptId in b.reservations[id].attempts then Some(p)
      else Some(p.(book := OpenAttempt(b, id, b.reservations[id], attemptId, NewAttempt(window, amount, keys))))
    case Bound(principal, upstream, keys, amounts) =>
      if id !in b.reservations || upstream == "" then None else
        var c := Rebind(b, id, upstream, keys, amounts);
        Some(p.(book := c.(reservations := c.reservations[id := Relabel(c.reservations[id], keys)])))
    case Heartbeat(principal) =>
      if id !in b.reservations || principal == "" then None else Some(p)
    case UsageRecorded(settlementId, principal, model, attemptId, window, known, tokens, cost) =>
      if id !in b.reservations || settlementId == "" || principal != b.reservations[id].principal then None
      else if settlementId in b.reservations[id].settlements then Some(p)
      else if OrFirst(attemptId) !in b.reservations[id].attempts then None
      else Some(p.(book := Settle(b, id, OrFirst(attemptId), settlementId, known, tokens, cost),
                   estimates := if known then NextEstimate(p.estimates, model, tokens, cost) else p.estimates,
                   counters := Counted(p.counters, known)))
    case Released => Some(p.(book := Drop(b, id)))
    case Reconciled => Some(p.(book := Drop(b, id)))
  }

  ghost function Replay(log: seq<Item<Event>>): Option<Replica> {
    if log == [] then Some(FRESH) else
      var last := log[|log| - 1];
      var before := Replay(log[..|log| - 1]);
      if before.None? then None else ReplayEvent(before.value, last.entity, last.payload)
  }

  ghost function DropEach(b: Book, order: seq<string>): Book {
    if order == [] then b else Drop(DropEach(b, order[..|order| - 1]), order[|order| - 1])
  }

  ghost predicate Enumerates(order: seq<string>, ids: set<string>) {
    && (forall id :: id in order <==> id in ids)
    && forall i, j :: 0 <= i < j < |order| ==> order[i] != order[j]
  }

  function ReconciledItems(order: seq<string>, now: int): seq<Item<Event>> {
    seq(|order|, i requires 0 <= i < |order| => Item(now, order[i], Reconciled))
  }

  /** The reconciliations that are written, when that many appends succeed before one fails. */
  function Written(order: seq<string>, good: nat): seq<string> { if good < |order| then order[..good] else order }

  /** A new process replays the ledger and closes what the old one left open, in the arbitrary
      order of a map iteration.  In enforce mode it does not start unless all of that was
      written; the state is then what the ledger says, waiting for another process. */
  ghost function RestartStep(g: Gov, order: seq<string>, now: nat, good: nat): Gov {
    var replayed := Replay(g.ledger);
    if replayed.None? then g.(running := false)
    else
      var p, written := replayed.value, Written(order, good);
      var ledger := g.ledger + ReconciledItems(written, now);
      if good < |order| && g.config.enforce
      then Gov(g.config, DropEach(p.book, written), p.estimates, p.counters, ledger, false, false)
      else Gov(g.config, DropEach(p.book, order), p.estimates,
               p.counters.(reconciled := p.counters.reconciled + |order|, persistenceFailures := |order| - |written|),
               ledger, good >= |order|, true)
  }

  // ---------------------------------------------------------------- runs

  datatype Op =
    | Apply(config: Config)
    | Admit(id: string, admission: Admission, now: nat, healthy: bool, ok: bool)
    | Bind(id: string, upstream: string, now: nat, ok: bool)
    | Begin(id: string, attempt: string, now: nat, ok: bool)
    | Record(id: string, settlement: string, usage: Reported, now: nat, okOpen: bool, ok: bool)
    | Release(id: string, now: nat, ok: bool)
    | Beat(id: string, now: nat, ok: bool)
    | Restart(order: seq<string>, now: nat, good: nat)

  /** What may happen next: only a new configuration and a restart unless a process is running, reported usage is int64,
      and a restart visits each replayed reservation once. */
  ghost predicate Possible(g: Gov, op: Op) {
    (op.Restart? || op.Apply? || g.running) && match op
    case Record(_, _, usage, _, _, _) => ReportedInRange(usage)
    case Restart(order, _, _) =>
      Replay(g.ledger).Some? && Enumerates(order, Replay(g.ledger).value.book.reservations.Keys)
    case _ => true
  }

  /** The binding goes through and moves the reservation. */
  ghost predicate Moves(g: Gov, op: Op) {
    && op.Bind? && BindStep(g, op.id, op.upstream, op.now, op.ok).1 == Done
    && op.id in g.book.reservations && g.book.reservations[op.id].upstream != Glob.Trim(op.upstream)
  }

  lemma {:induction false} StillBinding(g: Gov, op: Op)
    requires op.Bind? && !Moves(g, op)
    ensures BindStep(g, op.id, op.upstream, op.now, op.ok).0.book == g.book
    ensures BindStep(g, op.id, op.upstream, op.now, op.ok).0.config == g.config
  {}

  lemma {:induction false} MovingBinding(g: Gov, op: Op)
    requires Moves(g, op)
    ensures var keys, amount := BindingKeys(g, op.id, op.upstream), BindingAmount(g, op.id, op.upstream);
      var h := BindStep(g, op.id, op.upstream, op.now, op.ok).0;
      && h.config == g.config
      && h.book == Rebind(g.book, op.id, Glob.Trim(op.upstream), keys,
                          BindingAmounts(g.book.reservations[op.id], amount))
      && JudgeBindings(g.config, g.book, op.id, WindowOf(op.now), keys, amount, |keys|) == Fits
  {}

  ghost function Step(g: Gov, op: Op): Gov
    requires Possible(g, op)
  {
    match op
    case Apply(cfg) => g.(config := cfg)
    case Admit(id, adm, now, healthy, ok) => AdmitStep(g, id, adm, now, healthy, ok).0
    case Bind(id, upstream, now, ok) => BindStep(g, id, upstream, now, ok).0
    case Begin(id, attempt, now, ok) => BeginStep(g, id, attempt, now, ok).0
    case Record(id, settlement, usage, now, okOpen, ok) => RecordStep(g, id, settlement, usage, now, okOpen, ok).0
    case Release(id, now, ok) => ReleaseStep(g, id, now, ok).0
    case Beat(id, now, ok) => HeartbeatStep(g, id, now, ok)
    case Restart(order, now, good) => RestartStep(g, order, now, good)
  }

  function Initial(cfg: Config): Gov { Gov(cfg, Book(map[], map[]), map[], NO_COUNTS, [], true, true) }

  /** gs are the states a new manager goes through under the operations ops. */
  ghost predicate IsRun(cfg: Config, gs: seq<Gov>, ops: seq<Op>) {
    && |gs| == |ops| + 1 && gs[0] == Initial(cfg)
    && forall i :: 0 <= i < |ops| ==> Possible(gs[i], ops[i]) && gs[i + 1] == Step(gs[i], ops[i])
  }
}
