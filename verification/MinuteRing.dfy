/** The monitoring ring: one day of minute buckets, each overwritten when its slot comes round
    again, against the log of everything ever recorded. */
module MinuteRing {

  const SLOTS := 24 * 60
  const durationLimits: seq<int> := [1_000, 5_000, 15_000, 30_000, 60_000, 300_000, 900_000, 3_600_000]
  const attemptLimits: seq<int> := [1, 2, 3, 5, 10, 20]
  const errorCodes: seq<string> := ["transport", "protocol", "auth", "rate_limit", "client", "server", "http"]

  datatype Update = Received
                  | Attempt
                  | AttemptFailure(category: string)
                  | Recovery(elapsed: int, attempts: int)
                  | Failover
                  | Uncertain
                  | Resolution(action: string)
                  | PersistenceFailure
                  | CaptureFailure
                  | Final(outcome: string)

  datatype Counters = Counters(requests: nat, successful: nat, failed: nat, canceled: nat, rejected: nat, expired: nat,
                               attempts: nat, failedAttempts: nat, recovered: nat, failovers: nat, uncertain: nat,
                               confirmed: nat, abandoned: nat, compensated: nat, persistence: nat, capture: nat)

  datatype Tally = Tally(counters: Counters, recoveryMillis: nat, durations: seq<nat>, attempts: seq<nat>,
                         errors: seq<nat>)

  datatype Bucket = Empty | Bucket(minute: int, tally: Tally)

  /** Every number a tally holds. */
  datatype Cell = Requests | Successful | Failed | Canceled | Rejected | Expired | Attempts | FailedAttempts
                | Recovered | Failovers | Uncertains | Confirmed | Abandoned | Compensated | Persistence | Capture
                | RecoveryMillis | Duration(index: nat) | AttemptCount(index: nat) | Error(index: nat)

  function Zeros(n: nat): seq<nat> { seq(n, _ => 0) }

  function Nothing(): Tally {
    Tally(Counters(0, 0, 0, 0, 0, 0, 0, 0, 0, 0, 0, 0, 0, 0, 0, 0), 0,
          Zeros(|durationLimits| + 1), Zeros(|attemptLimits| + 1), Zeros(|errorCodes|))
  }

  predicate WellFormed(t: Tally) {
    |t.durations| == |durationLimits| + 1 && |t.attempts| == |attemptLimits| + 1 && |t.errors| == |errorCodes|
  }

  function At(s: seq<nat>, i: nat): nat { if i < |s| then s[i] else 0 }

  function ReadCounter(c: Counters, cell: Cell): nat {
    match cell
    case Requests => c.requests
    case Successful => c.successful
    case Failed => c.failed
    case Canceled => c.canceled
    case Rejected => c.rejected
    case Expired => c.expired
    case Attempts => c.attempts
    case FailedAttempts => c.failedAttempts
    case Recovered => c.recovered
    case Failovers => c.failovers
    case Uncertains => c.uncertain
    case Confirmed => c.confirmed
    case Abandoned => c.abandoned
    case Compensated => c.compensated
    case Persistence => c.persistence
    case Capture => c.capture
    case _ => 0
  }

  function Read(t: Tally, cell: Cell): nat {
    match cell
    case RecoveryMillis => t.recoveryMillis
    case Duration(i) => At(t.durations, i)
    case AttemptCount(i) => At(t.attempts, i)
    case Error(i) => At(t.errors, i)
    case _ => ReadCounter(t.counters, cell)
  }

  // ---------------------------------------------------------------- what an update counts

  function Clamp(x: int): nat { if x < 0 then 0 else x }

  function One(b: bool): nat { if b then 1 else 0 }

  /** Bucket i of a histogram holds the values above limit i - 1 and up to limit i. */
  predicate InBucket(limits: seq<int>, v: int, i: nat) {
    i <= |limits| && (i > 0 ==> limits[i - 1] < v) && (i < |limits| ==> v <= limits[i])
  }

  /** A failure counts under its own code, or under the last one if it has none. */
  predicate OfCode(category: string, i: nat) {
    i < |errorCodes| && (category == errorCodes[i] || (i == |errorCodes| - 1 && category !in errorCodes))
  }

  /** How much an update adds to a cell. */
  function Amount(u: Update, cell: Cell): nat {
    match cell
    case Requests => One(u.Received?)
    case Successful => One(u.Final? && (u.outcome == "successful" || u.outcome == "confirmed_success"))
    case Failed => One(u.Final? && (u.outcome == "failed" || u.outcome == "abandoned"))
    case Canceled => One(u.Final? && u.outcome == "canceled")
    case Rejected => One(u.Final? && u.outcome == "rejected")
    case Expired => One(u.Final? && u.outcome == "expired")
    case Attempts => One(u.Attempt?)
    case FailedAttempts => One(u.AttemptFailure?)
    case Recovered => One(u.Recovery?)
    case Failovers => One(u.Failover?)
    case Uncertains => One(u.Uncertain?)
    case Confirmed => One(u.Resolution? && u.action == "confirm_success")
    case Abandoned => One(u.Resolution? && u.action == "abandon")
    case Compensated => One(u.Resolution? && u.action == "request_compensation")
    case Persistence => One(u.PersistenceFailure?)
    case Capture => One(u.CaptureFailure?)
    case RecoveryMillis => if u.Recovery? then Clamp(u.elapsed) else 0
    case Duration(i) => One(u.Recovery? && InBucket(durationLimits, Clamp(u.elapsed), i))
    case AttemptCount(i) => One(u.Recovery? && InBucket(attemptLimits, u.attempts, i))
    case Error(i) => One(u.AttemptFailure? && OfCode(u.category, i))
  }

  datatype Entry = Entry(minute: int, update: Update)

  /** Everything recorded in the minutes from lo up to hi. */
  function Total(log: seq<Entry>, lo: int, hi: int, cell: Cell): nat {
    if log == [] then 0 else
      var last := log[|log| - 1];
      Total(log[..|log| - 1], lo, hi, cell) + if lo <= last.minute < hi then Amount(last.update, cell) else 0
  }

  lemma {:induction false} TotalAppend(log: seq<Entry>, e: Entry, lo: int, hi: int, cell: Cell)
    ensures Total(log + [e], lo, hi, cell)
         == Total(log, lo, hi, cell) + if lo <= e.minute < hi then Amount(e.update, cell) else 0
  {
    assert (log + [e])[..|log|] == log;
  }

  lemma {:induction false} TotalSplit(log: seq<Entry>, lo: int, mid: int, hi: int, cell: Cell)
    requires lo <= mid <= hi
    ensures Total(log, lo, hi, cell) == Total(log, lo, mid, cell) + Total(log, mid, hi, cell)
  {
    if log != [] { TotalSplit(log[..|log| - 1], lo, mid, hi, cell); }
  }

  lemma {:induction false} TotalOutside(log: seq<Entry>, lo: int, hi: int, cell: Cell)
    requires forall i :: 0 <= i < |log| ==> !(lo <= log[i].minute < hi)
    ensures Total(log, lo, hi, cell) == 0
  {
    if log != [] { TotalOutside(log[..|log| - 1], lo, hi, cell); }
  }

  // ---------------------------------------------------------------- histograms

  predicate Rising(limits: seq<int>) { forall i, j :: 0 <= i < j < |limits| ==> limits[i] < limits[j] }

  method FindBucket(limits: seq<int>, v: int) returns (index: nat)
    requires Rising(limits)
    ensures InBucket(limits, v, index)
  {
    index := 0;
    while index < |limits|
      invariant index <= |limits| && (index > 0 ==> limits[index - 1] < v)
    {
      if v <= limits[index] { return; }
      index := index + 1;
    }
  }

  method FindCode(category: string) returns (index: nat)
    ensures OfCode(category, index)
  {
    index := 0;
    while index < |errorCodes|
      invariant index <= |errorCodes| && forall j :: 0 <= j < index ==> category != errorCodes[j]
    {
      if category == errorCodes[index] { return; }
      index := index + 1;
    }
    index := |errorCodes| - 1;
  }

  lemma {:induction false} OneBucket(limits: seq<int>, v: int, i: nat, j: nat)
    requires Rising(limits) && InBucket(limits, v, i) && InBucket(limits, v, j)
    ensures i == j
  {
  }

  lemma {:induction false} OneCode(category: string, i: nat, j: nat)
    requires OfCode(category, i) && OfCode(category, j)
    ensures i == j
  {
    assert forall a, b :: 0 <= a < b < |errorCodes| ==> errorCodes[a] != errorCodes[b];
  }

  /** Some bucket takes every value. */
  lemma {:induction false} SomeBucket(limits: seq<int>, v: int) returns (i: nat)
    requires Rising(limits)
    ensures InBucket(limits, v, i)
  {
    i := 0;
    while i < |limits| && limits[i] < v
      invariant i <= |limits| && (i > 0 ==> limits[i - 1] < v)
    {
      i := i + 1;
    }
  }

  function SumTo(f: nat -> nat, n: nat): nat { if n == 0 then 0 else SumTo(f, n - 1) + f(n - 1) }

  lemma {:induction false} SumToPlus(f: nat -> nat, g: nat -> nat, h: nat -> nat, n: nat)
    requires forall i: nat :: i < n ==> h(i) == f(i) + g(i)
    ensures SumTo(h, n) == SumTo(f, n) + SumTo(g, n)
  {
    if n > 0 { SumToPlus(f, g, h, n - 1); }
  }

  /** A sum with a single one in it. */
  lemma {:induction false} SumToOne(f: nat -> nat, n: nat, k: nat)
    requires forall i: nat :: i < n ==> f(i) == One(i == k)
    ensures SumTo(f, n) == One(k < n)
  {
    if n > 0 { SumToOne(f, n - 1, k); }
  }

  lemma {:induction false} SumToZero(f: nat -> nat, n: nat)
    requires forall i: nat :: i < n ==> f(i) == 0
    ensures SumTo(f, n) == 0
  {
    if n > 0 { SumToZero(f, n - 1); }
  }

  /** The three breakdowns: recoveries by duration and by attempts, failed attempts by code. */
  datatype Histogram = ByDuration | ByAttempts | ByCode

  function Bar(h: Histogram, i: nat): Cell {
    match h
    case ByDuration => Duration(i)
    case ByAttempts => AttemptCount(i)
    case ByCode => Error(i)
  }

  function Bars(h: Histogram): nat {
    match h
    case ByDuration => |durationLimits| + 1
    case ByAttempts => |attemptLimits| + 1
    case ByCode => |errorCodes|
  }

  /** What the bars break down. */
  function Whole(h: Histogram): Cell { if h.ByCode? then FailedAttempts else Recovered }

  /** Whether a counted update belongs to a bar. */
  predicate Falls(h: Histogram, u: Update, i: nat)
    requires Amount(u, Whole(h)) == 1
  {
    match h
    case ByDuration => InBucket(durationLimits, Clamp(u.elapsed), i)
    case ByAttempts => InBucket(attemptLimits, u.attempts, i)
    case ByCode => OfCode(u.category, i)
  }

  lemma {:induction false} SomeCode(category: string) returns (i: nat)
    ensures OfCode(category, i)
  {
    if category in errorCodes { i :| i < |errorCodes| && errorCodes[i] == category; } else { i := |errorCodes| - 1; }
  }

  lemma {:induction false} SomeBar(h: Histogram, u: Update) returns (k: nat)
    requires Amount(u, Whole(h)) == 1
    ensures k < Bars(h) && Falls(h, u, k)
  {
    match h
    case ByDuration => k := SomeBucket(durationLimits, Clamp(u.elapsed));
    case ByAttempts => k := SomeBucket(attemptLimits, u.attempts);
    case ByCode => k := SomeCode(u.category);
  }

  lemma {:induction false} OneBar(h: Histogram, u: Update, i: nat, j: nat)
    requires Amount(u, Whole(h)) == 1 && Falls(h, u, i) && Falls(h, u, j)
    ensures i == j
  {
    match h
    case ByDuration => OneBucket(durationLimits, Clamp(u.elapsed), i, j);
    case ByAttempts => OneBucket(attemptLimits, u.attempts, i, j);
    case ByCode => OneCode(u.category, i, j);
  }

  lemma {:induction false} UpdateFillsOneBar(h: Histogram, u: Update)
    ensures SumTo(i => Amount(u, Bar(h, i)), Bars(h)) == Amount(u, Whole(h))
  {
    var f: nat -> nat := i => Amount(u, Bar(h, i));
    if Amount(u, Whole(h)) == 1 {
      var k := SomeBar(h, u);
      forall i: nat | i < Bars(h) ensures f(i) == One(i == k) {
        if Falls(h, u, i) { OneBar(h, u, i, k); }
      }
      SumToOne(f, Bars(h), k);
    } else {
      SumToZero(f, Bars(h));
    }
  }

  /** Over any log and window, the bars of each breakdown add up to what they break down. */
  lemma {:induction false} HistogramTotal(log: seq<Entry>, lo: int, hi: int, h: Histogram)
    ensures SumTo(i => Total(log, lo, hi, Bar(h, i)), Bars(h)) == Total(log, lo, hi, Whole(h))
  {
    var all: nat -> nat := i => Total(log, lo, hi, Bar(h, i));
    if log == [] {
      SumToZero(all, Bars(h));
    } else {
      var past, last := log[..|log| - 1], log[|log| - 1];
      HistogramTotal(past, lo, hi, h);
      var before: nat -> nat := i => Total(past, lo, hi, Bar(h, i));
      var inside := lo <= last.minute < hi;
      var now: nat -> nat := i => if inside then Amount(last.update, Bar(h, i)) else 0;
      SumToPlus(before, now, all, Bars(h));
      if inside {
        UpdateFillsOneBar(h, last.update);
        SumToSame(now, i => Amount(last.update, Bar(h, i)), Bars(h));
      } else {
        SumToZero(now, Bars(h));
      }
    }
  }

  lemma {:induction false} SumToSame(f: nat -> nat, g: nat -> nat, n: nat)
    requires forall i: nat :: i < n ==> f(i) == g(i)
    ensures SumTo(f, n) == SumTo(g, n)
  {
    if n > 0 { SumToSame(f, g, n - 1); }
  }

  // ---------------------------------------------------------------- outcomes

  const OUTCOMES: set<string> :=
    {"successful", "confirmed_success", "failed", "abandoned", "canceled", "rejected", "expired"}

  /** The requests of a window that ended with one of the outcomes the gateway knows. */
  function Ended(log: seq<Entry>, lo: int, hi: int): nat {
    if log == [] then 0 else
      var last := log[|log| - 1];
      Ended(log[..|log| - 1], lo, hi)
      + One(lo <= last.minute < hi && last.update.Final? && last.update.outcome in OUTCOMES)
  }

  /** Every request that ended is in exactly one of the five outcome counters. */
  lemma {:induction false} OutcomesTotal(log: seq<Entry>, lo: int, hi: int)
    ensures Total(log, lo, hi, Successful) + Total(log, lo, hi, Failed) + Total(log, lo, hi, Canceled)
          + Total(log, lo, hi, Rejected) + Total(log, lo, hi, Expired) == Ended(log, lo, hi)
  {
    if log != [] { OutcomesTotal(log[..|log| - 1], lo, hi); }
  }

  // ---------------------------------------------------------------- the ring as a refinement

  /** The slot of a minute, from a remainder that takes the sign of its dividend. */
  function BucketIndex(minute: int): (i: nat)
    ensures i < SLOTS && i == minute % SLOTS
  {
    var r := if minute >= 0 then minute % SLOTS else -(-minute % SLOTS);
    if r < 0 then
      NegativeRemainder(minute);
      r + SLOTS
    else
      (if minute < 0 then ZeroRemainder(minute); r else r)
  }

  lemma {:induction false} NegativeRemainder(m: int)
    requires m < 0 && -m % SLOTS != 0
    ensures m % SLOTS == SLOTS - -m % SLOTS
  {
  }

  lemma {:induction false} ZeroRemainder(m: int)
    requires m < 0 && -m % SLOTS == 0
    ensures m % SLOTS == 0
  {
  }

  lemma {:induction false} SlotsDiffer(m: int, k: int)
    requires BucketIndex(m) == BucketIndex(k) && m - SLOTS < k < m + SLOTS
    ensures m == k
  {
  }

  ghost predicate Counts(t: Tally, log: seq<Entry>, minute: int) {
    WellFormed(t) && forall cell :: Read(t, cell) == Total(log, minute, minute + 1, cell)
  }

  predicate Quiet(log: seq<Entry>, minute: int) { forall i :: 0 <= i < |log| ==> log[i].minute != minute }

  /** What the ring knows of one minute of the last day. */
  ghost predicate Faithful(b: Bucket, log: seq<Entry>, minute: int) {
    if b.Bucket? && b.minute == minute then Counts(b.tally, log, minute) else Quiet(log, minute)
  }

  /** The ring is right about every minute of the day up to the clock. */
  ghost predicate Refines(ring: seq<Bucket>, log: seq<Entry>, clock: int) {
    && |ring| == SLOTS
    && (forall i :: 0 <= i < |log| ==> log[i].minute <= clock)
    && (forall i :: 0 <= i < SLOTS && ring[i].Bucket? ==> ring[i].minute <= clock)
    && (forall m :: m > clock - SLOTS ==> Faithful(ring[BucketIndex(m)], log, m))
  }

  /** Time passing forgets, but never misreports. */
  lemma {:induction false} RefinesLater(ring: seq<Bucket>, log: seq<Entry>, clock: int, now: int)
    requires Refines(ring, log, clock) && clock <= now
    ensures Refines(ring, log, now)
  {
  }

  lemma {:induction false} NothingReads(cell: Cell)
    ensures Read(Nothing(), cell) == 0
  {
  }

  lemma {:induction false} QuietCounts(log: seq<Entry>, minute: int)
    requires Quiet(log, minute)
    ensures Counts(Nothing(), log, minute)
  {
    forall cell ensures Read(Nothing(), cell) == Total(log, minute, minute + 1, cell) {
      NothingReads(cell);
      TotalOutside(log, minute, minute + 1, cell);
    }
  }

  lemma {:induction false} CountsMore(t: Tally, u: Tally, log: seq<Entry>, e: Entry)
    requires Counts(t, log, e.minute) && WellFormed(u)
    requires forall cell :: Read(u, cell) == Read(t, cell) + Amount(e.update, cell)
    ensures Counts(u, log + [e], e.minute)
  {
    forall cell ensures Read(u, cell) == Total(log + [e], e.minute, e.minute + 1, cell) {
      TotalAppend(log, e, e.minute, e.minute + 1, cell);
    }
  }

  lemma {:induction false} OtherMinute(b: Bucket, log: seq<Entry>, e: Entry, m: int)
    requires Faithful(b, log, m) && m != e.minute
    ensures Faithful(b, log + [e], m)
  {
    if b.Bucket? && b.minute == m {
      forall cell ensures Read(b.tally, cell) == Total(log + [e], m, m + 1, cell) {
        TotalAppend(log, e, m, m + 1, cell);
      }
    }
  }

  /** An update into its own slot keeps the ring right, whatever it overwrote. */
  lemma {:induction false} RecordRefines(ring: seq<Bucket>, log: seq<Entry>, e: Entry, b: Bucket)
    requires Refines(ring, log, e.minute)
    requires b.Bucket? && b.minute == e.minute && Counts(b.tally, log + [e], e.minute)
    ensures Refines(ring[BucketIndex(e.minute) := b], log + [e], e.minute)
  {
    var after := ring[BucketIndex(e.minute) := b];
    forall m | m > e.minute - SLOTS ensures Faithful(after[BucketIndex(m)], log + [e], m) {
      if m > e.minute {
        assert Quiet(log + [e], m);
      } else if m != e.minute {
        if BucketIndex(m) == BucketIndex(e.minute) { SlotsDiffer(m, e.minute); }
        OtherMinute(ring[BucketIndex(m)], log, e, m);
      }
    }
  }

  // ---------------------------------------------------------------- adding tallies

  function AddSeq(s: seq<nat>, t: seq<nat>): seq<nat>
    requires |s| == |t|
  {
    seq(|s|, i requires 0 <= i < |s| => s[i] + t[i])
  }

  method AddEach(s: seq<nat>, t: seq<nat>) returns (sum: seq<nat>)
    requires |s| == |t|
    ensures sum == AddSeq(s, t)
  {
    sum := s;
    for i := 0 to |s|
      invariant |sum| == |s|
      invariant forall j :: 0 <= j < i ==> sum[j] == s[j] + t[j]
      invariant forall j :: i <= j < |s| ==> sum[j] == s[j]
    {
      sum := sum[i := sum[i] + t[i]];
    }
  }

  function AddCounters(a: Counters, b: Counters): Counters {
    Counters(a.requests + b.requests, a.successful + b.successful, a.failed + b.failed, a.canceled + b.canceled,
             a.rejected + b.rejected, a.expired + b.expired, a.attempts + b.attempts,
             a.failedAttempts + b.failedAttempts,
             a.recovered + b.recovered, a.failovers + b.failovers, a.uncertain + b.uncertain, a.confirmed + b.confirmed,
             a.abandoned + b.abandoned, a.compensated + b.compensated, a.persistence + b.persistence,
             a.capture + b.capture)
  }

  lemma {:induction false} AddCountersReads(a: Counters, b: Counters, cell: Cell)
    ensures ReadCounter(AddCounters(a, b), cell) == ReadCounter(a, cell) + ReadCounter(b, cell)
  {
  }

  method Plus(a: Tally, b: Tally) returns (sum: Tally)
    requires WellFormed(a) && WellFormed(b)
    ensures WellFormed(sum) && sum.counters == AddCounters(a.counters, b.counters)
    ensures forall cell :: Read(sum, cell) == Read(a, cell) + Read(b, cell)
  {
    var durations := AddEach(a.durations, b.durations);
    var attempts := AddEach(a.attempts, b.attempts);
    var errors := AddEach(a.errors, b.errors);
    sum := Tally(AddCounters(a.counters, b.counters), a.recoveryMillis + b.recoveryMillis, durations, attempts, errors);
    forall cell ensures Read(sum, cell) == Read(a, cell) + Read(b, cell) {
      AddCountersReads(a.counters, b.counters, cell);
    }
  }

  // ---------------------------------------------------------------- recording

  ghost predicate Adds(t: Tally, v: Tally, u: Update) {
    WellFormed(v) && forall cell :: Read(v, cell) == Read(t, cell) + Amount(u, cell)
  }

  lemma {:induction false} BarBumped(s: seq<nat>, limits: seq<int>, v: int, i: nat)
    requires Rising(limits) && |s| == |limits| + 1 && InBucket(limits, v, i)
    ensures forall k :: At(s[i := s[i] + 1], k) == At(s, k) + One(InBucket(limits, v, k))
  {
    forall k | InBucket(limits, v, k) ensures k == i { OneBucket(limits, v, k, i); }
  }

  lemma {:induction false} CodeBumped(s: seq<nat>, category: string, i: nat)
    requires |s| == |errorCodes| && OfCode(category, i)
    ensures forall k :: At(s[i := s[i] + 1], k) == At(s, k) + One(OfCode(category, k))
  {
    forall k | OfCode(category, k) ensures k == i { OneCode(category, k, i); }
  }

  method CountFailure(t: Tally, category: string) returns (v: Tally)
    requires WellFormed(t)
    ensures Adds(t, v, AttemptFailure(category))
  {
    var i := FindCode(category);
    CodeBumped(t.errors, category, i);
    v := t.(counters := t.counters.(failedAttempts := t.counters.failedAttempts + 1),
            errors := t.errors[i := t.errors[i] + 1]);
  }

  method CountRecovery(t: Tally, elapsed: int, attempts: int) returns (v: Tally)
    requires WellFormed(t)
    ensures Adds(t, v, Recovery(elapsed, attempts))
  {
    var milliseconds := Clamp(elapsed);
    var i := FindBucket(durationLimits, milliseconds);
    var j := FindBucket(attemptLimits, attempts);
    BarBumped(t.durations, durationLimits, milliseconds, i);
    BarBumped(t.attempts, attemptLimits, attempts, j);
    v := t.(counters := t.counters.(recovered := t.counters.recovered + 1),
            recoveryMillis := t.recoveryMillis + milliseconds,
            durations := t.durations[i := t.durations[i] + 1],
            attempts := t.attempts[j := t.attempts[j] + 1]);
    RecoveryAdds(t, v, Recovery(elapsed, attempts));
  }

  lemma {:induction false} RecoveryAdds(t: Tally, v: Tally, u: Update)
    requires WellFormed(t) && WellFormed(v) && u.Recovery?
    requires v.counters == t.counters.(recovered := t.counters.recovered + 1) && v.errors == t.errors
    requires v.recoveryMillis == t.recoveryMillis + Clamp(u.elapsed)
    requires forall k :: At(v.durations, k) == At(t.durations, k) + One(InBucket(durationLimits, Clamp(u.elapsed), k))
    requires forall k :: At(v.attempts, k) == At(t.attempts, k) + One(InBucket(attemptLimits, u.attempts, k))
    ensures Adds(t, v, u)
  {
    forall cell ensures Read(v, cell) == Read(t, cell) + Amount(u, cell) {
      match cell
      case Duration(i) =>
      case AttemptCount(i) =>
      case _ =>
    }
  }

  method CountFinal(t: Tally, outcome: string) returns (v: Tally)
    requires WellFormed(t)
    ensures Adds(t, v, Final(outcome))
  {
    var c := t.counters;
    if outcome == "successful" || outcome == "confirmed_success" { c := c.(successful := c.successful + 1); }
    else if outcome == "failed" || outcome == "abandoned" { c := c.(failed := c.failed + 1); }
    else if outcome == "canceled" { c := c.(canceled := c.canceled + 1); }
    else if outcome == "rejected" { c := c.(rejected := c.rejected + 1); }
    else if outcome == "expired" { c := c.(expired := c.expired + 1); }
    v := t.(counters := c);
  }

  method CountResolution(t: Tally, action: string) returns (v: Tally)
    requires WellFormed(t)
    ensures Adds(t, v, Resolution(action))
  {
    var c := t.counters;
    if action == "confirm_success" { c := c.(confirmed := c.confirmed + 1); }
    else if action == "abandon" { c := c.(abandoned := c.abandoned + 1); }
    else if action == "request_compensation" { c := c.(compensated := c.compensated + 1); }
    v := t.(counters := c);
  }

  method CountPlain(t: Tally, u: Update) returns (v: Tally)
    requires WellFormed(t) && !u.AttemptFailure? && !u.Recovery? && !u.Final? && !u.Resolution?
    ensures Adds(t, v, u)
  {
    var c := t.counters;
    match u {
      case Received => c := c.(requests := c.requests + 1);
      case Attempt => c := c.(attempts := c.attempts + 1);
      case Failover => c := c.(failovers := c.failovers + 1);
      case Uncertain => c := c.(uncertain := c.uncertain + 1);
      case PersistenceFailure => c := c.(persistence := c.persistence + 1);
      case CaptureFailure => c := c.(capture := c.capture + 1);
    }
    v := t.(counters := c);
  }

  method Count(t: Tally, u: Update) returns (v: Tally)
    requires WellFormed(t)
    ensures Adds(t, v, u)
  {
    match u {
      case AttemptFailure(category) => v := CountFailure(t, category);
      case Recovery(elapsed, attempts) => v := CountRecovery(t, elapsed, attempts);
      case Final(outcome) => v := CountFinal(t, outcome);
      case Resolution(action) => v := CountResolution(t, action);
      case _ => v := CountPlain(t, u);
    }
  }

  // ---------------------------------------------------------------- the store

  function WindowMinutes(window: int): (n: int)
    ensures 1 <= n <= SLOTS && (n < window ==> n == SLOTS) && (n > window ==> n == 1)
  {
    if window < 1 then 1 else if window > SLOTS then SLOTS else window
  }

  datatype Metrics = Metrics(from: int, series: seq<Counters>, totals: Tally)

  class Store {
    const buckets: array<Bucket>
    ghost var log: seq<Entry>
    ghost var clock: int

    ghost predicate Valid() reads this, buckets { buckets.Length == SLOTS && Refines(buckets[..], log, clock) }

    constructor (now: int)
      ensures Valid() && log == [] && clock == now && fresh(buckets)
    {
      buckets := new Bucket[SLOTS](_ => Empty);
      log, clock := [], now;
    }

    /** Records an update in the current minute. */
    method Record(u: Update, now: int)
      requires Valid() && clock <= now
      modifies this, buckets
      ensures Valid() && clock == now && log == old(log) + [Entry(now, u)]
    {
      RefinesLater(buckets[..], log, clock, now);
      var index := BucketIndex(now);
      assert Faithful(buckets[..][BucketIndex(now)], log, now);
      var t := if buckets[index].Bucket? && buckets[index].minute == now then buckets[index].tally else Nothing();
      if !(buckets[index].Bucket? && buckets[index].minute == now) { QuietCounts(log, now); }
      var v := Count(t, u);
      CountsMore(t, v, log, Entry(now, u));
      RecordRefines(buckets[..], log, Entry(now, u), Bucket(now, v));
      ghost var before := buckets[..];
      buckets[index] := Bucket(now, v);
      assert buckets[..] == before[index := Bucket(now, v)];
      log, clock := log + [Entry(now, u)], now;
    }

    method Lookup(minute: int) returns (found: bool, t: Tally)
      requires Valid() && clock - SLOTS < minute
      ensures found ==> Counts(t, log, minute)
      ensures !found ==> Quiet(log, minute)
    {
      var b := buckets[BucketIndex(minute)];
      assert b == buckets[..][BucketIndex(minute)];
      assert Faithful(b, log, minute);
      found := b.Bucket? && b.minute == minute;
      t := if found then b.tally else Nothing();
    }

    /** Totals, series and histograms of the last minutes are those of the whole log. */
    method Report(window: int, now: int) returns (m: Metrics)
      requires Valid() && clock <= now
      ensures var n := WindowMinutes(window);
        && m.from == now - n + 1 && |m.series| == n && WellFormed(m.totals)
        && (forall cell :: Read(m.totals, cell) == Total(log, m.from, now + 1, cell))
        && (forall k, cell :: 0 <= k < n && IsCounter(cell)
              ==> ReadCounter(m.series[k], cell) == Total(log, m.from + k, m.from + k + 1, cell))
    {
      var minutes := WindowMinutes(window);
      var from := now - (minutes - 1);
      var series, totals := [], Nothing();
      ghost var entries := log;
      NoMinutes(entries, from);
      for offset := 0 to minutes
        invariant entries == log && Valid() && clock <= now
        invariant |series| == offset && WellFormed(totals) && CountsWindow(totals, entries, from, from + offset)
        invariant SeriesCounts(series, entries, from)
      {
        var found, t := Lookup(from + offset);
        if !found { QuietCounts(entries, from + offset); }
        var more := Plus(totals, if found then t else Nothing());
        WindowGrows(totals, if found then t else Nothing(), more, entries, from, from + offset);
        SeriesGrows(series, if found then t else Nothing(), entries, from);
        totals, series := more, series + [if found then t.counters else Nothing().counters];
      }
      m := Metrics(from, series, totals);
    }

    /** Failures by code over the last minutes. */
    method ErrorsFor(window: int, now: int) returns (from: int, counts: seq<nat>)
      requires Valid() && clock <= now
      ensures from == now - WindowMinutes(window) + 1 && |counts| == |errorCodes|
      ensures forall i :: 0 <= i < |counts| ==> counts[i] == Total(log, from, now + 1, Error(i))
    {
      var minutes := WindowMinutes(window);
      from := now - (minutes - 1);
      counts := Zeros(|errorCodes|);
      ghost var entries := log;
      NoErrors(entries, from);
      for offset := 0 to minutes
        invariant entries == log && Valid() && clock <= now
        invariant ErrorsCount(counts, entries, from, from + offset)
      {
        var found, t := Lookup(from + offset);
        if found {
          var more := AddEach(counts, t.errors);
          ErrorsGrow(counts, t, entries, from, from + offset);
          counts := more;
        } else {
          ErrorsQuiet(counts, entries, from, from + offset);
        }
      }
    }
  }

  predicate IsCounter(cell: Cell) {
    !cell.RecoveryMillis? && !cell.Duration? && !cell.AttemptCount? && !cell.Error?
  }

  ghost predicate CountsWindow(t: Tally, log: seq<Entry>, lo: int, hi: int) {
    forall cell :: Read(t, cell) == Total(log, lo, hi, cell)
  }

  ghost predicate SeriesCounts(series: seq<Counters>, log: seq<Entry>, from: int) {
    forall k, cell :: 0 <= k < |series| && IsCounter(cell)
      ==> ReadCounter(series[k], cell) == Total(log, from + k, from + k + 1, cell)
  }

  ghost predicate ErrorsCount(counts: seq<nat>, log: seq<Entry>, lo: int, hi: int) {
    |counts| == |errorCodes| && forall i :: 0 <= i < |counts| ==> counts[i] == Total(log, lo, hi, Error(i))
  }

  lemma {:induction false} NoMinutes(log: seq<Entry>, from: int)
    ensures CountsWindow(Nothing(), log, from, from)
  {
    forall cell ensures Read(Nothing(), cell) == Total(log, from, from, cell) {
      NothingReads(cell);
      TotalOutside(log, from, from, cell);
    }
  }

  lemma {:induction false} WindowGrows(t: Tally, minute: Tally, sum: Tally, log: seq<Entry>, lo: int, hi: int)
    requires lo <= hi && CountsWindow(t, log, lo, hi) && Counts(minute, log, hi)
    requires forall cell :: Read(sum, cell) == Read(t, cell) + Read(minute, cell)
    ensures CountsWindow(sum, log, lo, hi + 1)
  {
    forall cell ensures Read(sum, cell) == Total(log, lo, hi + 1, cell) { TotalSplit(log, lo, hi, hi + 1, cell); }
  }

  lemma {:induction false} SeriesGrows(series: seq<Counters>, minute: Tally, log: seq<Entry>, from: int)
    requires SeriesCounts(series, log, from) && Counts(minute, log, from + |series|)
    ensures SeriesCounts(series + [minute.counters], log, from)
  {
    forall cell | IsCounter(cell)
      ensures ReadCounter(minute.counters, cell) == Total(log, from + |series|, from + |series| + 1, cell)
    {
      assert Read(minute, cell) == ReadCounter(minute.counters, cell);
    }
  }

  lemma {:induction false} NoErrors(log: seq<Entry>, from: int)
    ensures ErrorsCount(Zeros(|errorCodes|), log, from, from)
  {
    forall i | 0 <= i < |errorCodes| ensures Total(log, from, from, Error(i)) == 0 {
      TotalOutside(log, from, from, Error(i));
    }
  }

  lemma {:induction false} ErrorsGrow(counts: seq<nat>, minute: Tally, log: seq<Entry>, lo: int, hi: int)
    requires lo <= hi && ErrorsCount(counts, log, lo, hi) && Counts(minute, log, hi)
    ensures ErrorsCount(AddSeq(counts, minute.errors), log, lo, hi + 1)
  {
    forall i | 0 <= i < |counts| ensures counts[i] + minute.errors[i] == Total(log, lo, hi + 1, Error(i)) {
      assert Read(minute, Error(i)) == minute.errors[i];
      TotalSplit(log, lo, hi, hi + 1, Error(i));
    }
  }

  lemma {:induction false} ErrorsQuiet(counts: seq<nat>, log: seq<Entry>, lo: int, hi: int)
    requires lo <= hi && ErrorsCount(counts, log, lo, hi) && Quiet(log, hi)
    ensures ErrorsCount(counts, log, lo, hi + 1)
  {
    forall i | 0 <= i < |counts| ensures counts[i] == Total(log, lo, hi + 1, Error(i)) {
      TotalSplit(log, lo, hi, hi + 1, Error(i));
      TotalOutside(log, hi, hi + 1, Error(i));
    }
  }

  /** In every report both histograms add up to the recoveries, and the codes to the failures. */
  lemma {:induction false} ReportHistograms(totals: Tally, log: seq<Entry>, lo: int, hi: int, h: Histogram)
    requires CountsWindow(totals, log, lo, hi)
    ensures SumTo(i => Read(totals, Bar(h, i)), Bars(h)) == Read(totals, Whole(h))
  {
    HistogramTotal(log, lo, hi, h);
    SumToSame(i => Read(totals, Bar(h, i)), i => Total(log, lo, hi, Bar(h, i)), Bars(h));
    assert Read(totals, Whole(h)) == Total(log, lo, hi, Whole(h));
  }
}
