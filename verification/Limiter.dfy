/** The concurrency limiter: a queue whose waiters sleep on a channel that every change closes
    and replaces.  Each critical section is one step; the steps of all calls interleave freely. */
module Limiter {

  /** What the lock protects.  Waiters are named by the number of their Acquire call; channels
      are numbered, and those below the current one are closed. */
  datatype Core = Core(active: int, waiters: seq<nat>, channel: nat, issued: nat)

  datatype Limits = Limits(maxActive: int, maxWaiting: int)

  datatype Entry = Entered | QueueFull | Queued

  /** First critical section of Acquire: newcomers may overtake those who wait. */
  function Arrived(c: Core, l: Limits): (Core, Entry) {
    if c.active < l.maxActive then (c.(active := c.active + 1, issued := c.issued + 1), Entered)
    else if |c.waiters| >= l.maxWaiting then (c.(issued := c.issued + 1), QueueFull)
    else (c.(waiters := c.waiters + [c.issued], issued := c.issued + 1), Queued)
  }

  predicate Admits(c: Core, l: Limits, w: nat) {
    |c.waiters| > 0 && c.waiters[0] == w && c.active < l.maxActive
  }

  /** Critical section of the waiting loop: go in, or read the channel to sleep on. */
  function Rechecked(c: Core, l: Limits, w: nat): Core {
    if Admits(c, l, w) then c.(active := c.active + 1, waiters := c.waiters[1..], channel := c.channel + 1) else c
  }

  function Released(c: Core): Core {
    c.(active := if c.active > 0 then c.active - 1 else c.active, channel := c.channel + 1)
  }

  function Removed(waiters: seq<nat>, w: nat): seq<nat> {
    if waiters == [] then [] else if waiters[0] == w then waiters[1..] else [waiters[0]] + Removed(waiters[1..], w)
  }

  function Left(c: Core, w: nat): Core {
    if w in c.waiters then c.(waiters := Removed(c.waiters, w), channel := c.channel + 1) else c
  }

  // ---------------------------------------------------------------- the object

  class Limiter {
    var active: int
    var waiters: seq<nat>
    var channel: nat
    var issued: nat

    function Model(): Core reads this { Core(active, waiters, channel, issued) }

    constructor ()
      ensures Model() == Core(0, [], 0, 0)
    {
      active, waiters, channel, issued := 0, [], 0, 0;
    }

    method Arrive(l: Limits) returns (w: nat, entry: Entry)
      modifies this
      ensures w == old(issued) && (Model(), entry) == Arrived(old(Model()), l)
    {
      w := issued;
      issued := issued + 1;
      if active < l.maxActive {
        active := active + 1;
        return w, Entered;
      }
      if |waiters| >= l.maxWaiting { return w, QueueFull; }
      waiters := waiters + [w];
      entry := Queued;
    }

    method Recheck(l: Limits, w: nat) returns (admitted: bool, sleepOn: nat)
      modifies this
      ensures Model() == Rechecked(old(Model()), l, w)
      ensures admitted == Admits(old(Model()), l, w) && sleepOn == old(channel)
    {
      sleepOn := channel;
      admitted := |waiters| > 0 && waiters[0] == w && active < l.maxActive;
      if admitted {
        active := active + 1;
        waiters := waiters[1..];
        channel := channel + 1;
      }
    }

    method Release()
      modifies this
      ensures Model() == Released(old(Model()))
    {
      if active > 0 { active := active - 1; }
      channel := channel + 1;
    }

    method RemoveWaiter(w: nat)
      modifies this
      ensures Model() == Left(old(Model()), w)
    {
      var i := 0;
      while i < |waiters|
        invariant i <= |waiters| && w !in waiters[..i]
        invariant Model() == old(Model())
      {
        if waiters[i] == w {
          RemovedAt(waiters, w, i);
          waiters := waiters[..i] + waiters[i + 1..];
          channel := channel + 1;
          return;
        }
        assert waiters[..i + 1] == waiters[..i] + [waiters[i]];
        i := i + 1;
      }
      assert waiters[..i] == waiters;
    }
  }

  lemma {:induction false} RemovedAt(waiters: seq<nat>, w: nat, i: nat)
    requires i < |waiters| && waiters[i] == w && w !in waiters[..i]
    ensures Removed(waiters, w) == waiters[..i] + waiters[i + 1..]
  {
    if i > 0 {
      assert waiters[0] in waiters[..i];
      assert waiters[1..][..i - 1] == waiters[1..i];
      assert forall x :: x in waiters[1..i] ==> x in waiters[..i];
      RemovedAt(waiters[1..], w, i - 1);
      assert waiters[1..][i..] == waiters[i + 1..];
      assert waiters[..i] == [waiters[0]] + waiters[1..i];
    }
  }

  // ---------------------------------------------------------------- all calls together

  /** Where an Acquire call is; a call that returned an error or gave its permit back is gone. */
  datatype Phase = Checking | Parked(channel: nat) | Leaving | Holding

  /** The shared core, every call in progress, and the order in which waiters were admitted. */
  datatype System = System(core: Core, calls: map<nat, Phase>, admitted: seq<nat>)

  datatype Op = Arrive | Check(w: nat) | Wake(w: nat) | Cancel(w: nat) | Leave(w: nat) | Release(w: nat)

  predicate Enabled(s: System, op: Op) {
    match op
    case Arrive => true
    case Check(w) => w in s.calls && s.calls[w] == Checking
    case Wake(w) => w in s.calls && s.calls[w].Parked? && s.calls[w].channel < s.core.channel
    case Cancel(w) => w in s.calls && s.calls[w].Parked?
    case Leave(w) => w in s.calls && s.calls[w] == Leaving
    case Release(w) => w in s.calls && s.calls[w] == Holding
  }

  function Step(s: System, l: Limits, op: Op): System
    requires Enabled(s, op)
  {
    match op
    case Arrive =>
      var (c, entry) := Arrived(s.core, l);
      s.(core := c, calls := match entry
                             case Entered => s.calls[s.core.issued := Holding]
                             case QueueFull => s.calls
                             case Queued => s.calls[s.core.issued := Checking])
    case Check(w) =>
      if Admits(s.core, l, w)
      then System(Rechecked(s.core, l, w), s.calls[w := Holding], s.admitted + [w])
      else s.(calls := s.calls[w := Parked(s.core.channel)])
    case Wake(w) => s.(calls := s.calls[w := Checking])
    case Cancel(w) => s.(calls := s.calls[w := Leaving])
    case Leave(w) => s.(core := Left(s.core, w), calls := s.calls - {w})
    case Release(w) => s.(core := Released(s.core), calls := s.calls - {w})
  }

  ghost function Holders(s: System): set<nat> { set w | w in s.calls && s.calls[w] == Holding }

  predicate Ascending(ws: seq<nat>) { forall i, j :: 0 <= i < j < |ws| ==> ws[i] < ws[j] }

  ghost predicate Counted(s: System, l: Limits) {
    && s.core.active == |Holders(s)| && s.core.active <= Positive(l.maxActive)
    && |s.core.waiters| <= Positive(l.maxWaiting)
  }

  function Positive(n: int): nat { if n > 0 then n else 0 }

  ghost predicate Queue(s: System) {
    && (forall w :: w in s.calls ==> w < s.core.issued)
    && (forall w :: w in s.core.waiters <==> w in s.calls && s.calls[w] != Holding)
    && (forall w :: w in s.calls && s.calls[w].Parked? ==> s.calls[w].channel <= s.core.channel)
  }

  /** Waiters queue in the order of their calls and are admitted in that order. */
  ghost predicate InOrder(s: System) {
    && Ascending(s.core.waiters) && Ascending(s.admitted)
    && (forall a, w :: a in s.admitted && w in s.core.waiters ==> a < w)
    && (forall a :: a in s.admitted ==> a < s.core.issued)
  }

  /** No waiter at the head sleeps on the current channel while a slot is free. */
  predicate NoLostWakeup(s: System, l: Limits) {
    s.core.waiters != [] && s.core.waiters[0] in s.calls && s.calls[s.core.waiters[0]] == Parked(s.core.channel) ==>
      s.core.active >= l.maxActive
  }

  ghost predicate Sound(s: System, l: Limits) {
    Counted(s, l) && Queue(s) && InOrder(s) && NoLostWakeup(s, l)
  }

  lemma {:induction false} RemovedShape(ws: seq<nat>, w: nat)
    requires Ascending(ws) && w in ws
    ensures Ascending(Removed(ws, w)) && |Removed(ws, w)| == |ws| - 1
    ensures forall x :: x in Removed(ws, w) <==> x in ws && x != w
  {
    if ws[0] == w {
      assert ws == [w] + ws[1..];
    } else {
      assert ws == [ws[0]] + ws[1..];
      RemovedShape(ws[1..], w);
      var rest := Removed(ws[1..], w);
      forall i | 0 <= i < |rest| ensures ws[0] < rest[i] { assert rest[i] in rest; }
    }
  }

  lemma {:induction false} HoldersChange(s: System, t: System, w: nat, p: Phase)
    requires t.calls == s.calls[w := p]
    ensures Holders(t) == if p == Holding then Holders(s) + {w} else Holders(s) - {w}
  {}

  lemma {:induction false} HoldersGone(s: System, t: System, w: nat)
    requires t.calls == s.calls - {w}
    ensures Holders(t) == Holders(s) - {w}
  {}

  lemma {:induction false} EnterSound(s: System, l: Limits)
    requires Sound(s, l) && Arrived(s.core, l).1 == Entered
    ensures Sound(Step(s, l, Arrive), l)
  {
    var t, w := Step(s, l, Arrive), s.core.issued;
    assert w !in s.calls && w !in s.core.waiters;
    HoldersChange(s, t, w, Holding);
  }

  lemma {:induction false} EnqueueOrder(s: System, t: System)
    requires InOrder(s) && Queue(s) && t.core.waiters == s.core.waiters + [s.core.issued]
    requires t.admitted == s.admitted && t.core.issued == s.core.issued + 1
    ensures InOrder(t) && forall x :: x in t.core.waiters <==> x in s.core.waiters || x == s.core.issued
  {
    forall i | 0 <= i < |s.core.waiters| ensures s.core.waiters[i] < s.core.issued {
      assert s.core.waiters[i] in s.core.waiters;
    }
  }

  lemma {:induction false} EnqueueSound(s: System, l: Limits)
    requires Sound(s, l) && Arrived(s.core, l).1 == Queued
    ensures Sound(Step(s, l, Arrive), l)
  {
    var t, w := Step(s, l, Arrive), s.core.issued;
    assert w !in s.calls && w !in s.core.waiters;
    HoldersChange(s, t, w, Checking);
    assert Holders(t) == Holders(s);
    EnqueueOrder(s, t);
  }

  lemma {:induction false} ArriveSound(s: System, l: Limits)
    requires Sound(s, l)
    ensures Sound(Step(s, l, Arrive), l)
  {
    match Arrived(s.core, l).1
    case Entered => EnterSound(s, l);
    case QueueFull => assert Holders(Step(s, l, Arrive)) == Holders(s);
    case Queued => EnqueueSound(s, l);
  }

  lemma {:induction false} AdmitOrder(s: System, t: System, w: nat)
    requires InOrder(s) && s.core.waiters == [w] + t.core.waiters && t.admitted == s.admitted + [w]
    requires t.core.issued == s.core.issued && w < s.core.issued
    ensures InOrder(t) && w !in t.core.waiters
  {
    forall x | x in t.core.waiters ensures w < x && x in s.core.waiters {
      var i :| 0 <= i < |t.core.waiters| && t.core.waiters[i] == x;
      assert s.core.waiters[i + 1] == x && s.core.waiters[0] == w;
    }
    forall i, j | 0 <= i < j < |t.core.waiters| ensures t.core.waiters[i] < t.core.waiters[j] {
      assert s.core.waiters[i + 1] == t.core.waiters[i] && s.core.waiters[j + 1] == t.core.waiters[j];
    }
    assert w in s.core.waiters;
    forall i | 0 <= i < |s.admitted| ensures s.admitted[i] < w { assert s.admitted[i] in s.admitted; }
  }

  lemma {:induction false} AdmitSound(s: System, l: Limits, w: nat)
    requires Sound(s, l) && Enabled(s, Check(w)) && Admits(s.core, l, w)
    ensures Sound(Step(s, l, Check(w)), l)
  {
    var t := Step(s, l, Check(w));
    assert w in s.core.waiters && w !in Holders(s);
    HoldersChange(s, t, w, Holding);
    assert s.core.waiters == [w] + t.core.waiters;
    AdmitOrder(s, t, w);
    assert forall x :: x in s.core.waiters <==> x == w || x in t.core.waiters;
  }

  lemma {:induction false} ParkSound(s: System, l: Limits, w: nat)
    requires Sound(s, l) && Enabled(s, Check(w)) && !Admits(s.core, l, w)
    ensures Sound(Step(s, l, Check(w)), l)
  {
    var t := Step(s, l, Check(w));
    HoldersChange(s, t, w, Parked(s.core.channel));
    assert w !in Holders(s) && Holders(t) == Holders(s);
  }

  lemma {:induction false} CheckSound(s: System, l: Limits, w: nat)
    requires Sound(s, l) && Enabled(s, Check(w))
    ensures Sound(Step(s, l, Check(w)), l)
  {
    if Admits(s.core, l, w) { AdmitSound(s, l, w); } else { ParkSound(s, l, w); }
  }

  lemma {:induction false} WaitSound(s: System, l: Limits, w: nat, op: Op)
    requires Sound(s, l) && (op == Wake(w) || op == Cancel(w)) && Enabled(s, op)
    ensures Sound(Step(s, l, op), l)
  {
    HoldersChange(s, Step(s, l, op), w, if op.Wake? then Checking else Leaving);
  }

  lemma {:induction false} LeaveSound(s: System, l: Limits, w: nat)
    requires Sound(s, l) && Enabled(s, Leave(w))
    ensures Sound(Step(s, l, Leave(w)), l)
  {
    HoldersGone(s, Step(s, l, Leave(w)), w);
    RemovedShape(s.core.waiters, w);
  }

  lemma {:induction false} ReleaseSound(s: System, l: Limits, w: nat)
    requires Sound(s, l) && Enabled(s, Release(w))
    ensures Sound(Step(s, l, Release(w)), l)
  {
    HoldersGone(s, Step(s, l, Release(w)), w);
    assert w in Holders(s);
  }

  const START := System(Core(0, [], 0, 0), map[], [])

  ghost predicate IsRun(l: Limits, ss: seq<System>, ops: seq<Op>) {
    && |ss| == |ops| + 1 && ss[0] == START
    && forall i :: 0 <= i < |ops| ==> Enabled(ss[i], ops[i]) && ss[i + 1] == Step(ss[i], l, ops[i])
  }

  /** Every interleaving: the active count is the permits held and within its maximum, the
      queue within its own, waiters are admitted in the order they joined, and no wake-up is
      lost. */
  lemma {:induction false} RunSound(l: Limits, ss: seq<System>, ops: seq<Op>, n: nat)
    requires IsRun(l, ss, ops) && n <= |ops|
    ensures Sound(ss[n], l)
  {
    if n == 0 {
      assert Holders(START) == {};
    } else {
      RunSound(l, ss, ops, n - 1);
      match ops[n - 1]
      case Arrive => ArriveSound(ss[n - 1], l);
      case Check(w) => CheckSound(ss[n - 1], l, w);
      case Wake(w) => WaitSound(ss[n - 1], l, w, Wake(w));
      case Cancel(w) => WaitSound(ss[n - 1], l, w, Cancel(w));
      case Leave(w) => LeaveSound(ss[n - 1], l, w);
      case Release(w) => ReleaseSound(ss[n - 1], l, w);
    }
  }

  /** While a slot is free the waiter at the head has a step of its own, and that step takes
      it to the slot or out of the queue's way. */
  lemma {:induction false} HeadCanMove(l: Limits, ss: seq<System>, ops: seq<Op>)
    requires IsRun(l, ss, ops)
    requires ss[|ops|].core.waiters != [] && ss[|ops|].core.active < l.maxActive
    ensures var s, head := ss[|ops|], ss[|ops|].core.waiters[0];
      || (Enabled(s, Check(head)) && Step(s, l, Check(head)).calls[head] == Holding)
      || (Enabled(s, Wake(head)) && Enabled(Step(s, l, Wake(head)), Check(head))
          && Step(Step(s, l, Wake(head)), l, Check(head)).calls[head] == Holding)
      || (Enabled(s, Leave(head)) && head !in Step(s, l, Leave(head)).core.waiters)
  {
    RunSound(l, ss, ops, |ops|);
    var s := ss[|ops|];
    var head := s.core.waiters[0];
    assert head in s.core.waiters;
    RemovedShape(s.core.waiters, head);
  }

  ghost function Waiting(s: System): set<nat> { set w | w in s.calls && s.calls[w] != Holding }

  ghost function Members(ws: seq<nat>): set<nat> { set w | w in ws }

  lemma {:induction false} MembersNext(ws: seq<nat>, w: nat)
    requires w !in ws
    ensures |Members(ws + [w])| == |Members(ws)| + 1
  {
    assert Members(ws + [w]) == Members(ws) + {w};
  }

  lemma {:induction false} MembersCount(ws: seq<nat>)
    requires Ascending(ws)
    ensures |Members(ws)| == |ws|
  {
    if ws != [] {
      var n := |ws| - 1;
      MembersCount(ws[..n]);
      MembersNext(ws[..n], ws[n]);
      assert ws == ws[..n] + [ws[n]];
    }
  }

  lemma {:induction false} WaitersAreCalls(s: System, l: Limits)
    requires Sound(s, l)
    ensures |s.core.waiters| == |Waiting(s)|
  {
    MembersCount(s.core.waiters);
    assert Members(s.core.waiters) == Waiting(s);
  }

  /** Every arrival, in every interleaving: it goes in at once exactly when fewer permits are held
      than allowed; it is turned away exactly when all are held and as many calls wait as may;
      otherwise it waits, behind all others. */
  lemma {:induction false} ArrivalsAreFair(l: Limits, ss: seq<System>, ops: seq<Op>, n: nat)
    requires IsRun(l, ss, ops) && n < |ops| && ops[n] == Arrive
    ensures var s, t, w := ss[n], ss[n + 1], ss[n].core.issued;
      && w !in s.calls
      && (w in t.calls && t.calls[w] == Holding <==> |Holders(s)| < l.maxActive)
      && (w !in t.calls <==> |Holders(s)| >= l.maxActive && |Waiting(s)| >= l.maxWaiting)
      && (w in t.calls && t.calls[w] != Holding ==> t.core.waiters == s.core.waiters + [w])
      && (forall v :: v in s.calls ==> v in t.calls && t.calls[v] == s.calls[v])
  {
    RunSound(l, ss, ops, n);
    WaitersAreCalls(ss[n], l);
  }
}
