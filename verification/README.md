# Relay-Lifeline: a verified model of the gateway's state machines

Relay-Lifeline is a gateway in front of upstream services. Behind its HTTP handling it is a set of
lock-protected state machines, each paired with an append-only journal or a bounded structure that has to
agree with a simple specification. This project models those machines in Dafny and proves what they promise
over every run.

* **Governance** (`Governance*.dfy`, `Glob.dfy`, `KeySpelling.dfy`, `MapSums.dfy`, `Options.dfy`). Admissions reserve
  tokens, cost and request slots per budget key and minute; reservations are bound to an upstream, settled
  per attempt, released, and rebuilt from the ledger. `GovernanceBook` holds the book and its four updates;
  `Governance` the operations, the ledger's events, replay, restart and runs. Proved: conservation, replay
  equivalence, the budget, rate and concurrency bounds, every row, counter and estimate as a sum over the ledger's
  entries, when and why the manager refuses, and lifetimes with compaction. `GovernanceManager` is the object
  itself: loops over keys, attempts and reservations, saturating additions, subtractions clipped at zero.
  Its methods are proved to take exactly the steps of `Governance` whenever the numbers fit in int64; that
  nothing is ever clipped is part of that proof.
* **Journal** (`Journal.dfy`, `JournalLog.dfy`). A hash chain with anchor, append, verification, compaction
  by whole entity. A hash is an injective function of the entry; a write happens or does not.
* **Upstream pool** (`Upstream*.dfy`, `WeightedChoice.dfy`, `Failover.dfy`). Leases, the circuit breaker over
  whole runs, candidates and weighted choice, failover filters and the variables of the retry loop.
* **Limiter** (`Limiter.dfy`). The waiting loop as interleaved steps over channels that are closed to wake.
* **Policy releases** (`Release.dfy`, `ReleaseHistory.dfy`). Two-phase commit, crash, replay, reconciliation, and
  what history, draft and pending intents say of the journal.
* **Bounded views** (`Timeline*.dfy`, `MinuteRing.dfy`, `Pagination.dfy`). The bounded event list, the
  timeline with its journal and what its records tell, the 1440-slot minute ring, cursor pagination.

Time is an integer, numbers are unbounded unless said otherwise, and what the environment decides (whether
an append succeeds, the time, the order of a map iteration) is a parameter or left open.

Where the code does not meet what its comments or callers suggest, the model follows the code, and a lemma
gives the input together with the exact condition:

* A binding is judged on the minute of the moment but charged to the minutes of the attempts it moves. A late
  binding can exceed the budget of the upstream it gains (`LateBindingExceedsBudget`) and also that of a key
  it keeps, such as the principal's own (`LateBindingExceedsKeptKey`). `BudgetHeldIff` says exactly when the
  bound holds; `BudgetBound` gives it for bindings in the window of their attempts, which `RateBound` needs
  for upstream keys only.
* For the same reason late bindings can put two reservations on an upstream limited to one at a time
  (`LateBindingCrowdsUpstream`). `ConcurrencyHeldIff` says exactly when the concurrency bound holds;
  `ConcurrencyBound` gives it for every other key, and for upstream keys with bindings in the window of their
  attempts.
* Compaction of the usage ledger writes heartbeats only for reservations with an open attempt. A live
  reservation whose attempts are all settled can lose its entity, and its next entry then makes the ledger
  impossible to replay (`SettledReservationIsOrphaned`, `NextEntryReplaysIff`). Over whole lifetimes, with
  compactions of a degraded journal included, `OperationReplaysIff` says exactly which operations do that.
* The request journal may be kept for less time than the timeline's history, since validation does not compare
  the two (internal/config/v2.go:92-94). A compaction can then drop a request that the history still shows
  (`ShortJournalForgets`); `RecoverableIff` says exactly when restart equivalence holds.
* The policy journal is compacted at start-up before it is reconciled; an old pending intent is then
  forgotten although its policy may be the active one (`OldIntentIsForgotten`, `CompactedPending`).
* The history of releases remembers fifty operations. One that it has dropped is taken for new when it is recorded
  again, and comes back as the latest (`DroppedOperationReturns`); `HistoryIsLatestIff` says exactly when the history
  is the last fifty distinct operations throughout.
* A target without an idempotency domain puts no restriction on the next one, although cross-domain
  failover is off (`EmptyDomainCrosses`, `FailoverIsSafe`); naming a domain on every target is enough
  (`NamedDomainsAreSafe`).
* Critical timeline events are not aged out as long as at most 98 of them precede the newest one; a 99th in
  an overfull list is lost (`CriticalKeptIff`).
* A budget pattern of nothing but stars is not applied to an empty value, although the pattern matches it
  (`BudgetMatchesIsGlob`).

`dafny verify dfyconfig.toml` checks the whole project.

## Model

| member | source | states |
|---|---|---|
| `GovernanceBook.NeverClipped` | internal/governance/manager.go:1056-1074 | in a conserved book no open attempt holds more than its rows show, so no subtraction is clipped at zero |
| `GovernanceBook.OpenAttemptConserves` | internal/governance/manager.go:1044-1054 | charging a new attempt keeps the conservation law |
| `GovernanceBook.RebindConserves` | internal/governance/manager.go:1185-1217 | moving the open attempts to other keys and amounts keeps the conservation law |
| `GovernanceBook.SettleConserves` | internal/governance/manager.go:524-549 | settling an open attempt keeps the conservation law |
| `GovernanceBook.DropConserves` | internal/governance/manager.go:990-1000 | releasing a reservation keeps the conservation law |
| `GovernanceBook.AgreeConserves` | internal/governance/ledger.go:155-164 | a replayed book that differs only in keys of closed attempts is conserved when the live one is |
| `GovernancePolicy.SafeAdd` | internal/governance/manager.go:1512-1520 | exact within int64, saturated at the end it would pass |
| `GovernancePolicy.BudgetKeysShape` | internal/governance/manager.go:847-871 | keys are distinct, the principal's own first, and exactly those some matching budget asks for |
| `GovernancePolicy.OtherKeysStay` | internal/governance/manager.go:847-871 | another upstream changes only keys of upstream scope |
| `GovernancePolicy.Stricter` | internal/governance/manager.go:1468-1486 | the smaller positive limit; zero only when both are unlimited |
| `GovernancePolicy.LimitsForStrictest` | internal/governance/manager.go:882-894 | each limit of a key is the least positive one that applies to it, and unlimited only when none does |
| `GovernancePolicy.ReportedIsNeverFree` | internal/governance/manager.go:1219-1237 | reported usage costs something exactly when some part of it falls under a price; tokens that are only in the total fall under either |
| `GovernancePolicy.ReportedCharge` | internal/governance/manager.go:1219-1237 | a report is charged the larger of its total and the sum of its parts, each part at its own price and the rest at the dearer one; everything saturates only at the end |
| `GovernancePolicy.AmountsReserve` | internal/governance/manager.go:715-769 | an attempt reserves what is configured, else what its model used lately, else the least, within the configured bounds, unless one of its keys allows less: then the least that any of them allows |
| `GovernancePolicy.EstimateFollows` | internal/governance/manager.go:1239-1256 | the first sample is taken over, each later one counts for a quarter, and the estimate stays between the two |
| `Governance.NormalizeTrims` | internal/governance/manager.go:277-286 | white space around the parts of an admission is dropped and nothing else; a missing principal is called anonymous |
| `Governance.WindowOf` | internal/governance/manager.go:1002-1005 | the window of a moment is the start of its minute of the clock |
| `GovernancePolicy.AmountsWithinLimits` | internal/governance/manager.go:745-768 | an attempt never reserves more tokens or cost than one of its keys allows in a window, and none of a kind no key limits |
| `GovernancePolicy.JudgeAttemptsFits` | internal/governance/manager.go:771-801 | an attempt is let through exactly when every key has room |
| `GovernancePolicy.JudgeBindingsFits` | internal/governance/manager.go:1144-1182 | a binding is let through exactly when every new key has room |
| `GovernanceConservation.StepConserves` | internal/governance/manager.go:264-597 | every operation of a running process keeps the conservation law, whichever appends fail |
| `GovernanceConservation.SettledOnce` | internal/governance/manager.go:498-502 | a settlement that was recorded is not recorded again, whatever is reported the second time |
| `GovernanceConservation.SettledCost` | internal/governance/manager.go:498-502 | a repeated report is told the cost of the first one |
| `GovernanceReplay.RunInvariant` | internal/governance/manager.go:1044-1074 | in every reachable state of every run, restarts that fail half-way and configuration changes included: reserved amounts are those of the open attempts, and the ledger can be replayed and tells the same story as long as the journal is up |
| `GovernanceReplay.StepFaithful` | internal/governance/manager.go:320-330 | no operation leaves book and ledger apart, except outside enforce mode when the write failed |
| `GovernanceReplay.DownStays` | internal/governance/manager.go:1267-1276 | once an append failed nothing more is written until a restart |
| `GovernanceReplay.RestartEquivalence` | internal/governance/ledger.go:91-252 | after any run whose appends succeeded, or after a start that failed, a restart shows for every key and window the live requests, tokens, cost and unknown count, with nothing reserved and nothing open |
| `GovernanceBounds.BudgetBound` | internal/governance/manager.go:771-801 | over whole runs in enforce mode, used plus reserved never exceeds the limit plus the total overshoot of settled attempts |
| `GovernanceBounds.RebindBound` | internal/governance/manager.go:1132-1183 | an accepted binding is sound although the reservation's own share may be counted twice |
| `GovernanceBounds.RateBound` | internal/governance/manager.go:782-783 | over whole runs, the request count of a key and window never exceeds RequestsPerMinute; by `RateByTheClock` that is the attempts of a minute |
| `GovernanceTally.ReplayTallies` | internal/governance/ledger.go:91-252 | replay in closed form: each row is the attempts opened, the tokens and cost settled and the unknown settlements of the entries, plus what bindings moved |
| `GovernanceTally.RebindMoves` | internal/governance/manager.go:1185-1217 | a binding moves the requests of the open attempts from the keys lost to those gained, attempt for attempt |
| `GovernanceTally.UsageIsTheLedger` | internal/governance/manager.go:1044-1054 | in any run, while the journal is up, each row is the sum of the ledger's entries: requests, tokens, cost and unknown count |
| `GovernanceTally.RequestsAreAttempts` | internal/governance/manager.go:1044-1074 | the request count of a principal is the attempts opened in the window, settled and released ones included; so it is for tenants and models unless the configuration changes |
| `GovernanceTally.SettleKeepsRequests` | internal/governance/manager.go:1258-1265 | a settlement changes no request count on any slot |
| `GovernanceTally.RecordKeepsRequests` | internal/governance/manager.go:479-565 | recording the usage of an attempt that exists changes no request count on any slot |
| `GovernanceTally.RateByTheClock` | internal/governance/manager.go:1002-1005 | in enforce mode, for every key not of upstream scope, at most RequestsPerMinute attempts are opened on it in any minute of the clock, counted by the times of the entries |
| `GovernanceTally.RowByTheClock` | internal/governance/manager.go:1002-1005 | in enforce mode the row of a minute is what the ledger holds of entries written in that minute |
| `GovernanceTally.CountersAreTheLedger` | internal/governance/manager.go:331-345 | counters are those of the ledger: one admission per reservation entry, one settlement, known or unknown, per usage entry |
| `GovernanceTally.EstimatesAreTheLedger` | internal/governance/manager.go:1239-1256 | what is expected of a model is the moving average over the ledger's known settlements of that model |
| `GovernanceRefusals.AdmitRefusedIff` | internal/governance/manager.go:264-348 | an admission is refused for a limit exactly when nothing else stands in its way and some key has no room; the reason is the first limit exceeded of the first such key |
| `GovernanceRefusals.BeginRefusedIff` | internal/governance/manager.go:419-466 | the same for one more attempt of a reservation |
| `GovernanceRefusals.BindRefusedIff` | internal/governance/manager.go:1132-1183 | the same for a binding and the open attempts of the current minute, by the keys of the new upstream |
| `GovernanceRefusals.ExceedsByTheClock` | internal/governance/manager.go:771-801 | in enforce mode a limit is exceeded by what the ledger says of the minute and what open attempts hold, and by nothing else |
| `GovernanceBounds.SettleStepWithin` | internal/governance/manager.go:524-549 | a settlement raises a window by no more than it exceeded its own reservation |
| `GovernanceConcurrency.ConcurrencyBound` | internal/governance/manager.go:921-944 | over whole runs, reservations holding an outstanding attempt on a key never exceed MaxConcurrent, for upstream keys as long as bindings are made in the window of the attempts they move |
| `GovernanceCrowding.LateBindingCrowdsUpstream` | internal/governance/manager.go:1149-1158 | a run of two admissions and two late bindings after which two reservations hold an upstream limited to one |
| `GovernanceCrowding.BindingKeepsConcurrencyIff` | internal/governance/manager.go:1149-1170 | a binding keeps a concurrency limit on any key, gained, kept or lost, exactly when the other holders and its own open attempts do |
| `GovernanceCrowding.ConcurrencyHeldIff` | internal/governance/manager.go:1132-1183 | over a whole run in enforce mode the concurrency bound holds throughout exactly when every binding left a slot when it was made |
| `GovernanceLateBinding.LateBindingExceedsBudget` | internal/governance/manager.go:1148-1156 | a run of two admissions and two late bindings that puts twenty tokens on a window limited to ten |
| `GovernanceLateBinding.BindingKeepsLimitIff` | internal/governance/manager.go:1146-1179 | a binding keeps a limit on any key, gained, kept or lost, and in any window exactly when the sum known before it does |
| `GovernanceLateBinding.BudgetHeldIff` | internal/governance/manager.go:1132-1183 | over a whole run in enforce mode the bound holds throughout exactly when every binding left room on the slot when it was made |
| `GovernanceKeptKey.LateBindingExceedsKeptKey` | internal/governance/manager.go:1148-1156 | a run of two admissions and one late binding that puts fifteen tokens on a principal limited to ten |
| `GovernanceCompaction.CompactedReplays` | internal/governance/manager.go:660-683 | the compacted ledger replays, surviving reservations are as they were, and usage is unchanged in every window from the cutoff on |
| `GovernanceOrphans.BeatEachSurvives` | internal/governance/manager.go:671-681 | the heartbeats of a compaction keep alive exactly the reservations with an open attempt |
| `GovernanceOrphans.NextEntryReplaysIff` | internal/governance/manager.go:664-683 | in any run, after heartbeats and compaction the next attempt or binding of a live reservation can be replayed exactly when it has an open attempt or an entry since the cutoff |
| `GovernanceOrphans.LeftBehind` | internal/governance/ledger.go:132-135 | a live reservation without either makes the ledger impossible to replay with its next attempt |
| `GovernanceOrphans.SettledReservationIsOrphaned` | internal/governance/manager.go:672-674 | a run of one admission and its settlement, then compaction: the accepted retry leaves a ledger that no process can replay |
| `GovernanceProper.ProperConserves` | internal/governance/ledger.go:95-233 | replaying an entry that fits the state it was written for keeps a book conserved |
| `GovernanceLifetime.NextAlive` | internal/governance/manager.go:660-683 | running, compacting with the journal up or down, and restarting, in any order, keep the disk replayable, to reservations as they are and to the usage of the history from the last cutoff on, unless an operation goes on with a reservation that compaction took off the disk |
| `GovernanceLifetime.OperationReplaysIff` | internal/governance/manager.go:664-683 | at any moment of such a lifetime the disk can be replayed after an operation exactly when that operation does not go on with a reservation the disk has lost |
| `GovernanceLifetime.LifetimeRestart` | internal/governance/ledger.go:91-252 | over lifetimes with any number of compactions and restarts, the next start from the compacted disk shows the live usage of every window from the last cutoff on |
| `GovernanceLoops.UpdateKeys` | internal/governance/manager.go:1048-1053 | the loop over an attempt's keys updates exactly the rows of those keys, each once |
| `GovernanceLoops.ChargeKeys` | internal/governance/manager.go:1044-1054 | charges exactly the attempt's amounts unless a row would saturate |
| `GovernanceLoops.FreeKeys` | internal/governance/manager.go:1056-1067 | gives back exactly the attempt's amounts when the rows hold them |
| `GovernanceLoops.ConsumeKeys` | internal/governance/manager.go:539-544 | records a settlement once on every key, the principal's window first |
| `GovernanceLoops.FreeAttempts` | internal/governance/manager.go:990-996 | in any order, frees exactly what the open attempts of a reservation hold |
| `GovernanceLoops.MoveAttempts` | internal/governance/manager.go:1185-1217 | in any order, replaces the charges of the open attempts by the new ones and leaves the totals those of the attempts |
| `GovernanceDecisions.CollectKeys` | internal/governance/manager.go:847-871 | the loop collects the budget keys of the specification |
| `GovernanceDecisions.FindTenantBudget` | internal/governance/manager.go:873-880 | true exactly when some budget is of tenant scope |
| `GovernanceDecisions.FindLimits` | internal/governance/manager.go:882-894 | the loop merges the limits of every covering budget |
| `GovernanceDecisions.FindAmounts` | internal/governance/manager.go:715-769 | the amounts of the specification, capped by the tightest limit of all keys |
| `GovernanceDecisions.CountActive` | internal/governance/manager.go:925-944 | counts the open attempts on a key of every other reservation, in any order |
| `GovernanceDecisions.EvaluateLimits` | internal/governance/manager.go:771-801 | the first refusal over the keys, none outside enforce mode |
| `GovernanceDecisions.ListAmounts` | internal/governance/manager.go:1136-1143 | one amount for each open attempt and for no other |
| `GovernanceDecisions.CountOwn` | internal/governance/manager.go:1153-1166 | the reservation's own attempts of the window and what they will hold together |
| `GovernanceDecisions.EvaluateBinding` | internal/governance/manager.go:1132-1183 | the first refusal of a binding over its new keys |
| `GovernanceExact.ConservedMoves` | internal/governance/manager.go:1185-1217 | in a conserved book the loop of a binding is exact unless a sum exceeds int64 |
| `GovernanceExact.SettleAttempt` | internal/governance/manager.go:538-549 | in a conserved book a settlement is exact unless a sum exceeds int64 |
| `GovernanceManager.Manager.Admit` | internal/governance/manager.go:264-348 | outcome always, and new state unless a sum exceeds int64, are those of the admission step; the book stays conserved |
| `GovernanceManager.Manager.BindUpstream` | internal/governance/manager.go:368-410 | outcome and new state are those of the binding step; the book stays conserved |
| `GovernanceManager.Manager.BeginAttempt` | internal/governance/manager.go:419-466 | outcome and new state are those of the attempt step; the book stays conserved |
| `GovernanceManager.Manager.BeginAttemptWithUpstream` | internal/governance/manager.go:419-432 | with an upstream, the binding step comes first and its failure is the outcome; without one, only the attempt step is taken |
| `GovernanceManager.Manager.Record` | internal/governance/manager.go:479-565 | outcome always, and new state unless a sum exceeds int64, are those of the settlement step, with the reservation of an unknown attempt first; the cost is that of the first report |
| `GovernanceManager.Manager.Release` | internal/governance/manager.go:567-597 | always exact: what the reservation held is given back and it is forgotten |
| `GovernanceManager.Manager.Compact` | internal/governance/manager.go:664-683 | heartbeats in any order, any number of which reach the journal, and then the compacted ledger; it stops early exactly when a heartbeat could not be written in enforce mode |
| `GovernanceManager.Manager.Load` | internal/governance/ledger.go:91-252 | the replay loop and the reconciliation, in any order and with any number of successful appends, give the restart of the specification, ledger included when the process does not start |
| `GovernanceLoad.ReplayOne` | internal/governance/ledger.go:95-238 | one entry, replayed by the loops, has the effect the specification gives it |
| `GovernanceLoad.ReplayLedger` | internal/governance/ledger.go:91-239 | the loop over the ledger gives the replay of the specification, errors included |
| `GovernanceLedger.RunSteadfast` | internal/governance/manager.go:1267-1276 | every entry of a ledger a run can write is one the loop replays and not dated before the window it charges, and every part of the ledger replays to a conserved book |
| `GovernanceLedger.RunLedgerLoads` | internal/governance/ledger.go:91-252 | every ledger a run can write is replayed exactly by the loop and leaves a conserved book, as long as int64 suffices |
| `KeySpelling.ParseSpelled` | internal/governance/manager.go:1352-1368 | parsing gives back scope and value whatever characters the value holds |
| `KeySpelling.SpellInjective` | internal/governance/manager.go:1352-1357 | no two budget keys are spelled alike |
| `KeySpelling.NormalizeSpelled` | internal/governance/manager.go:1370-1376 | replay's normalization keeps a key exactly when its value is not empty |
| `KeySpelling.NormalizeAll` | internal/governance/manager.go:1378-1393 | the normal forms in order, each once; the principal's key for an empty list |
| `KeySpelling.KeysSurvive` | internal/governance/manager.go:1378-1393 | distinct keys with values come back from the ledger as they were |
| `Glob.GlobMatch` | internal/governance/manager.go:1424-1456 | the table agrees with the recursive meaning of the pattern, at every prefix |
| `Glob.BudgetMatchesIsGlob` | internal/governance/manager.go:1408-1422 | the decision, shortcut included, is the meaning of the trimmed pattern for every non-empty value, and for the empty one unless the pattern is all stars |
| `Glob.AppendStar` | internal/governance/manager.go:1424-1456 | a pattern extended by a star matches exactly the values with a matching prefix |
| `Glob.TrimIsTrim` | internal/governance/manager.go:1408-1410 | only white space at the ends is removed |
| `JournalLog.CompactedKeepsWhole` | internal/journal/store.go:339-353 | an entity keeps all its entries in order or loses them all |
| `Journal.ReadAndVerify` | internal/journal/store.go:450-483 | the running check accepts exactly the verified files |
| `Journal.VerifiesIffChain` | internal/journal/store.go:450-483 | a file verifies exactly when it is the chain its own items would produce |
| `Journal.SameHashSameFile` | internal/journal/store.go:485-498 | two verified non-empty files that end in the same hash are identical |
| `Journal.AnchorPinsFile` | internal/journal/store.go:500-531 | only the anchored file itself passes the anchor check |
| `Journal.RebuildChain` | internal/journal/store.go:599-609 | the rebuilt chain verifies and says what the entries said |
| `Journal.Retain` | internal/journal/store.go:339-353 | the two passes keep exactly the entries of the surviving entities |
| `Journal.AppendEffect` | internal/journal/store.go:153-231 | an append adds its item to a healthy journal or leaves one that takes no more; a degraded journal accepts nothing |
| `Journal.CompactEffect` | internal/journal/store.go:330-417 | compaction keeps or drops entities whole, whatever the state of the journal, and never heals a degraded one |
| `Journal.RunSound` | internal/journal/store.go:153-231 | over every run of appends, compactions and restarts the file verifies, and a healthy journal's sequence is its length |
| `Journal.Store.Append` | internal/journal/store.go:153-231 | the object's fields after an append, for every point of failure |
| `Journal.Store.Compact` | internal/journal/store.go:330-417 | the object's fields after a compaction, for every point of failure |
| `Journal.Store.Reopen` | internal/journal/store.go:110-143 | a new process starts from the file exactly when it verifies and is the anchored one |
| `WeightedChoice.Choose` | internal/upstream/manager.go:433-474 | a member of the lowest-priority-number group, at the cursor's place among the weights |
| `WeightedChoice.ChooseMany` | internal/upstream/manager.go:433-474 | consecutive choices, each from the cursor the last one left, are those of consecutive cursor positions |
| `WeightedChoice.ChoicesAreFair` | internal/upstream/manager.go:458-474 | as many consecutive choices as the best group weighs pick each member exactly as often as its weight, and nothing else |
| `Upstream.CandidatesSound` | internal/upstream/manager.go:352-405 | every candidate is a known target that passes its circuit and is safe to fail over to |
| `Upstream.SelectEffect` | internal/upstream/manager.go:194-227 | a selection only probes circuits, or gives one lease on a candidate with room |
| `Upstream.IdleNeverWedged` | internal/upstream/manager.go:363-374 | an idle target past its open period passes the circuit checks |
| `Upstream.NeverWedged` | internal/upstream/manager.go:246-315 | in every reachable state the half-open count is at most its maximum, below it unless half-open, at it only with a lease out; so no idle target is wedged |
| `UpstreamCircuit.CountsAreReports` | internal/upstream/manager.go:276-315 | over any run, successes are the reported ones, failures those reported since the circuit last closed, and throttled ones those of the rate_limit class |
| `UpstreamCircuit.ReportMovesCircuit` | internal/upstream/manager.go:276-315 | over any run a success closes the circuit; a failure opens a closed one exactly when both thresholds are met by the counts of the reports, and reopens a half-open one now; anything else leaves it alone |
| `UpstreamCircuit.SilenceKeepsCircuit` | internal/upstream/manager.go:363-371 | without a report a circuit only ever turns from open to half-open, and only once its period is over |
| `UpstreamCircuit.OpenIsNoCandidate` | internal/upstream/manager.go:363-366 | an open target is no candidate before its period has passed |
| `UpstreamCircuit.OpenKeepsOut` | internal/upstream/manager.go:363-366 | a target whose failure opened its circuit is in no candidates until the period is over, whatever happens meanwhile short of a success |
| `UpstreamCircuit.FailingTargetOpens` | internal/upstream/manager.go:307-314 | a target that only ever fails is shut out as soon as the minimum number of requests was reported |
| `UpstreamCircuit.TrialsAreLimited` | internal/upstream/manager.go:194-264 | leases given on a half-open circuit exceed those that came back to one by at most HalfOpenMax |
| `UpstreamSelection.CandidatesExact` | internal/upstream/manager.go:352-405 | who is a candidate, exactly: the preferred target if usable, none if it is required and not, else all usable ones but the previous where it is to be avoided and another is left |
| `UpstreamSelection.CandidatesComplete` | internal/upstream/manager.go:352-405 | there is a candidate exactly when some target is usable and a required preference can be met |
| `UpstreamSelection.PrimaryIsOnly` | internal/upstream/manager.go:355-358 | with primary-only nothing but the first target is used |
| `UpstreamSelection.SelectAnswers` | internal/upstream/manager.go:194-227 | no target without a candidate, full when none has room, and a lease otherwise |
| `UpstreamSelection.BlameIsRight` | internal/upstream/manager.go:200-206 | the pool is called unhealthy only when no target is healthy, unless a preference was required |
| `UpstreamSelection.SafetyBlamed` | internal/upstream/manager.go:414-431 | failover is called unsafe only after a write, and when some target is one the request may not go to |
| `UpstreamSelection.SelectionsAreFair` | internal/upstream/manager.go:433-474 | over any run, while the same group is to choose from and whatever is reported meanwhile, every full turn of selections leases each target exactly as often as its weight |
| `UpstreamManager.Manager.CollectEligible` | internal/upstream/manager.go:352-382 | one pass probes the circuits it looks at and collects the eligible targets |
| `UpstreamManager.Manager.Narrow` | internal/upstream/manager.go:384-405 | the preferred target alone, none, the others than the previous one, or all, as the specification says |
| `UpstreamManager.Manager.FindBlocked` | internal/upstream/manager.go:414-431 | true exactly when a write went before and some target is forbidden to the request |
| `UpstreamManager.Manager.Observe` | internal/upstream/manager.go:276-315 | branch by branch, the report of the specification |
| `UpstreamManager.Manager.Select` | internal/upstream/manager.go:194-227 | new state and answer are those of the selection step |
| `UpstreamManager.Manager.Finish` | internal/upstream/manager.go:246-315 | new state is that of the finish step, observation included; what reports do to the circuit over runs is in `UpstreamCircuit` |
| `Failover.LeaseIsSafe` | internal/upstream/manager.go:375-380 | a lease is only given on a target that is safe after what was written |
| `Failover.RetryLoop` | internal/proxy/gateway.go:264-479 | the targets written to by the loop are those of the carried variables' specification |
| `Failover.WritesAreLeases` | internal/proxy/gateway.go:387-446 | a request is written to exactly the targets it was given, once per attempt that wrote, up to the first refusal by governance, which is all that ends it |
| `Failover.FailoverIsSafe` | internal/proxy/gateway.go:387-399 | over the whole loop: without a key all writes go to one target; without cross-domain failover all go to one domain exactly when the first target written to names one, or none does |
| `Failover.NamedDomainsAreSafe` | internal/upstream/manager.go:378-380 | if every target of every pool names a domain and cross-domain failover is off, a request is written to one domain only |
| `Failover.EmptyDomainCrosses` | internal/upstream/manager.go:378-380 | two targets of one pool get a write each although cross-domain failover is off, when the first names no domain |
| `Limiter.RunSound` | internal/proxy/limiter.go:29-118 | in every interleaving active equals the permits held and is within its maximum, the queue within its own, waiters are admitted in joining order, and no head waiter sleeps unsignalled beside a free slot |
| `Limiter.HeadCanMove` | internal/proxy/limiter.go:49-69 | while a slot is free the head waiter can step, and its steps take the slot or leave the queue |
| `Limiter.ArrivalsAreFair` | internal/proxy/limiter.go:29-48 | in every interleaving an arrival enters exactly when fewer than MaxActive permits are held, is refused exactly when none is free and MaxWaiting calls wait, and queues last otherwise |
| `Limiter.Limiter.Arrive` | internal/proxy/limiter.go:29-48 | immediate admission, refusal when the queue is full, or a place at its end |
| `Limiter.Limiter.Recheck` | internal/proxy/limiter.go:49-69 | the head takes a free slot, or the caller learns which channel to wait on |
| `Limiter.Limiter.Release` | internal/proxy/limiter.go:72-81 | a permit is returned and everyone waiting is signalled |
| `Limiter.Limiter.RemoveWaiter` | internal/proxy/limiter.go:89-102 | the waiter leaves the queue, the others keep their order |
| `Release.Manager.PrepareCommit` | internal/policy/release.go:208-224 | the intent is written before it is pending, once per operation |
| `Release.Manager.FinalizeCommit` | internal/policy/release.go:226-246 | when the write succeeded the release is no longer pending and its operation is in the history, last if it was new, and nothing changes otherwise |
| `Release.Manager.AppendHistory` | internal/policy/release.go:310-320 | the release is recorded once per operation, last if new; only the oldest make room |
| `Release.Manager.FindRevision` | internal/policy/release.go:299-308 | the latest release of a revision, exactly when there is one |
| `Release.Manager.AbortCommit` | internal/policy/release.go:248-262 | the intent is dropped exactly when the write succeeded |
| `Release.Manager.Publish` | internal/admin/policy_api.go:119-143 | published exactly when all three writes succeed, and then in the history; every durable state on the way records a release only if it is active, and lets it become active only if it is recorded or pending |
| `Release.Manager.Restart` | internal/policy/release.go:74-121 | a new process knows exactly what the journal says |
| `Release.Manager.Reconcile` | internal/policy/release.go:274-297 | one closing entry for each intent in turn, applied or aborted by the active policy, until all are closed or an append fails |
| `Release.Recover` | internal/policy/release.go:74-121 | a new process on any durable state: replay, then reconciliation |
| `Release.CrashIsResolved` | internal/policy/release.go:208-297 | after a crash in any durable state of a publish, recovery leaves nothing pending, and the journal records the release exactly when it already did or the release was pending with the active policy; for a policy that was not active before, exactly when it is active |
| `ReleaseHistory.HistoryShape` | internal/policy/release.go:74-121 | for any journal the history has at most fifty records, one per operation, all results of the journal, that of the latest operation included |
| `ReleaseHistory.HistoryIsLatestIff` | internal/policy/release.go:310-320 | it is the last fifty distinct operations at every point of the journal exactly when no operation is recorded again after it was dropped |
| `ReleaseHistory.DroppedOperationReturns` | internal/policy/release.go:310-320 | the first of any more than fifty releases, recorded again, comes back as the latest |
| `ReleaseHistory.PendingIsUnresolved` | internal/policy/release.go:74-121 | pending are exactly the operations prepared and neither applied nor aborted since |
| `ReleaseHistory.DraftIsLastSaved` | internal/policy/release.go:74-121 | the draft is the last one saved, unless a release or rollback was applied since |
| `Release.CompactedPending` | internal/journal/store.go:339-353 | a release is pending after compaction exactly when it was pending and its operation has an entry since the cutoff |
| `Release.OldIntentIsForgotten` | cmd/relay-lifeline/main.go:200-203 | an intent older than the cutoff is lost when the journal is compacted before it is reconciled |
| `TimelineEvents.AddEvent` | internal/timeline/store.go:227-242 | the loop discards the first routine event after the anchor, or the first of all |
| `TimelineEvents.AddAllTrims` | internal/timeline/store.go:227-242 | for any events: at most 100 kept, anchor first, newest last, in order; kept plus dropped is one more than added; of each class the most recent are kept |
| `TimelineEvents.CriticalKeptIff` | internal/timeline/store.go:230-239 | no critical event is lost exactly when there are fewer than 100 events or at most 98 critical ones before the newest |
| `TimelineStore.RecordEvents` | internal/timeline/store.go:227-252 | a record's list is that trimming, its attempt the highest, its error that of the last failure, kept or not, and unchanged when none failed |
| `TimelineStore.PruneTwice` | internal/timeline/store.go:305-318 | pruning now and again later is pruning once, later |
| `TimelineHistory.SinceIsFilter` | internal/timeline/store.go:305-318 | filtering keeps every recent record as often as it was there, and no other |
| `TimelineHistory.PruneIsBounded` | internal/timeline/store.go:305-318 | for any list, as many of the recent records as MaxItems allows, from the front |
| `TimelineHistory.PruneIsFront` | internal/timeline/store.go:305-318 | of a history, the longest front within retention and MaxItems |
| `TimelineHistory.HistoryIsNewest` | internal/timeline/store.go:294-318 | after any run, restarts and compactions that spared it included, the history shows the longest front within retention and MaxItems of everything that ever completed, newest first |
| `TimelineHistory.HistoryIsBounded` | internal/timeline/store.go:294-318 | in any run, a history just read or reloaded has at most MaxItems records |
| `TimelineHistory.ActiveIsUnfinished` | internal/timeline/store.go:110-158 | active are exactly the requests started and not completed since, across restarts |
| `TimelineHistory.ActiveTells` | internal/timeline/store.go:110-139 | an active record names its request and start, holds the trimming of all events added since, the highest attempt and the last failure |
| `TimelineHistory.CompletedTells` | internal/timeline/store.go:141-158 | so does every record that ever completed, with the outcome and the time of the call that completed it |
| `TimelineStore.RestartEquivalence` | internal/timeline/store.go:141-201 | after any run whose compactions spared what the history showed, earlier restarts included, replay gives the live active set and, pruned at the same moment, the live history |
| `TimelineStore.RecoverableIff` | cmd/relay-lifeline/main.go:404 | over a whole run, with any cutoffs, the store can be recovered after every call exactly when each compaction spared the entities of all records the history showed |
| `TimelineStore.OldCutoffSpares` | cmd/relay-lifeline/main.go:404 | a journal kept at least as long as the history is always compacted so |
| `TimelineStore.ShortJournalForgets` | internal/config/v2.go:92-94 | for any cutoff within the history's retention: a completed request that the live store shows and a restart does not |
| `TimelineStore.CompactedReplays` | internal/journal/store.go:330-353 | the compacted timeline journal replays, with the same active records and every record completed since the cutoff |
| `TimelineStore.CloseAllEffect` | internal/timeline/store.go:203-217 | each interrupted request becomes one orphaned record on top of the history and stays recoverable |
| `TimelineStore.Store.Start` | internal/timeline/store.go:110-122 | new state and journal are those of the start step |
| `TimelineStore.Store.Add` | internal/timeline/store.go:124-139 | new state and journal are those of the event step; unknown requests are ignored |
| `TimelineStore.Store.Finish` | internal/timeline/store.go:141-158 | the record is completed and moved, and the history pruned to at most MaxItems; nothing happens when the write fails |
| `TimelineStore.Store.History` | internal/timeline/store.go:294-303 | the pruned history of at most MaxItems records, which replaces the one it was pruned from |
| `TimelineStore.Store.PruneLocked` | internal/timeline/store.go:305-318 | the loop keeps the recent records, from the front and at most MaxItems |
| `TimelineStore.Store.Load` | internal/timeline/store.go:160-201 | the loop rebuilds exactly what the journal describes, within MaxItems, or fails exactly when it cannot be replayed |
| `TimelineStore.Store.OrphanInterrupted` | internal/timeline/store.go:203-217 | in any order, active requests are closed as orphaned until all are or an append fails |
| `MinuteRing.BucketIndex` | internal/monitoring/store.go:417-423 | the slot of a minute is its non-negative remainder, negative minutes included |
| `MinuteRing.RecordRefines` | internal/monitoring/store.go:379-387 | writing into its own slot keeps the ring right about every minute of the last day, whatever it overwrote |
| `MinuteRing.FindBucket` | internal/monitoring/store.go:444-460 | the bucket whose bounds enclose the value |
| `MinuteRing.FindCode` | internal/monitoring/store.go:462-469 | the category's own code, or the last one if it has none |
| `MinuteRing.Store.Record` | internal/monitoring/store.go:183-264 | the ring, updated in place, still refines the log of everything recorded |
| `MinuteRing.Store.Report` | internal/monitoring/store.go:276-332 | totals, per-minute series and histograms equal the sums over the whole log, for every window |
| `MinuteRing.Store.ErrorsFor` | internal/monitoring/store.go:336-371 | failures by code equal the sums over the whole log |
| `MinuteRing.HistogramTotal` | internal/monitoring/store.go:193-211 | over any log and window the bars of each histogram add up to the recoveries, and the codes to the failed attempts |
| `MinuteRing.OutcomesTotal` | internal/monitoring/store.go:242-264 | over any log and window the five outcome counters add up to the requests that ended with a known outcome |
| `MinuteRing.WindowMinutes` | internal/monitoring/store.go:279-285 | the window asked for, or the nearest a ring of a day can cover |
| `MinuteRing.ReportHistograms` | internal/monitoring/store.go:314-330 | in every report both histograms add up to Recovered, and the failures by code to FailedAttempts |
| `Pagination.OrderedUnique` | internal/admin/query.go:132-137 | records with distinct identifiers can be ordered in one way only, whatever sort is used |
| `Pagination.QueryHistory` | internal/admin/query.go:131-160 | the page holds the first matching records past the cursor, and says whether there are more |
| `Pagination.IsWanted` | internal/admin/query.go:138-145 | the tests of the loop are those of cursor, range, state and search |
| `Pagination.ContainsIsSubstring` | internal/admin/query.go:204-211 | a search finds its text anywhere |
| `Pagination.BelowIsExact` | internal/admin/query.go:138-150 | selection past a cursor gives every matching record once, in order |
| `Pagination.BelowNext` | internal/admin/query.go:193-198 | the cursor of a page resumes exactly after its last item |
| `Pagination.PaginationIsComplete` | internal/admin/query.go:131-160 | following cursors to the end returns every matching record exactly once in order, although records come before the cursor meanwhile |
| `Pagination.PaginationEnds` | internal/admin/query.go:151-158 | the last page is reached |
| `Pagination.CursorsAreAccepted` | internal/admin/query.go:117-127 | every cursor handed out is one the parser takes back |

## Left out

- HTTP handling, transports, TLS, sessions, webhooks, telemetry, localization, diagnostics and the console: I/O or thin wrappers.
- File system calls, JSON, SHA-256 and HMAC: hashes and policy revisions are injective functions of content, and an append or a replacement of a file happens or does not.
- Governance diagnostics: soft thresholds, forecasts, rejection counters, request identifiers, start times, the sample count of an estimate and the released flag of a reservation, none of which an operation decides by.
- Usage rows that a look-up creates with all zeros, and the caches of the current window: an absent row reads as zeros.
- int64 wrap-around in the unguarded sums of the limit checks (internal/governance/manager.go:784, 1175) and of request counts: these are unbounded here.
- A governance manager without a ledger.
- Older ledger forms: a settlement without attempt identifier resolved to any open attempt, entries without keys, and repeated keys in a reservation entry.
- GovernanceManager.Manager.BeginAttemptWithUpstream: does not model what other callers do between the binding and the attempt, which take the lock separately; in runs they are the two operations Bind and Begin.
- GovernanceLoad.ReplayOne: exact only for entries as the manager writes them, and a settlement is charged to the window of its attempt where the source takes the window written in the entry (internal/governance/ledger.go:207-217); the manager writes the same one in both places.
- GovernanceManager.Manager.Load: exact only for ledgers whose entries are replayed on conserved books within int64; `GovernanceLedger.RunLedgerLoads` shows that every ledger of a run is one, up to int64.
- GovernanceManager.Manager.BindUpstream: its condition also covers the sums between two attempts of the loop, which may be higher than those before and after it.
- GovernanceBounds.BudgetBound: does not say that every binding that would fit is accepted, because the code counts a reservation's own share twice on keys that stay.
- Upstream: direct observations without a lease, changes of circuit settings or targets during a run, adaptive scores, latency statistics, and an exact count of half-open leases.
- Limiter: changes of the limits during a run and the change callback; newcomers may overtake waiters, as in the code.
- Release: how drafts are saved and candidates chosen before a release is prepared, validation, stages and canary percentages.
- Timeline: details of events and errors other than message, kind, attempt and time; a change of the limits during a run; pruning and restart equivalence assume a clock that does not run backwards.
- Minute ring: load and peak gauges, ratios and averages, and uint64 wrap-around of counters; time is counted in whole minutes.
- Pagination: removal of old records between two pages, the encoding of cursors, lower-casing beyond ASCII, and the incident list, which has the same form.
