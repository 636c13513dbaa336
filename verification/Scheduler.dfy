/** The time-event scheduler: buckets of future events (x/global/manager.go) that
    beginBlocker executes second by second (app/app.go). */
module Scheduler {

  /** Events are numbered in the order of registration; `dues`, `blocks`, `log`
      and `logBlocks` are history: when each event is due, the times of all
      blocks, and which events were executed in which block, in order. */
  datatype State = State(start: int, now: int, last: int, events: map<int, seq<nat>>,
                         dues: seq<int>, blocks: seq<int>, log: seq<nat>, logBlocks: seq<nat>)

  const GENESIS := State(0, 0, 0, map[], [], [], [], [])

  /** The times at which the execution of an event asks to register others. */
  type Spawns = map<nat, seq<int>>

  function At(s: State, t: int): seq<nat> {
    if t in s.events then s.events[t] else []
  }

  /** registerEventAtTime: a time that has passed is an error. */
  function Register(s: State, due: int): State {
    if due < s.now then s
    else s.(events := s.events[due := At(s, due) + [|s.dues|]], dues := s.dues + [due])
  }

  function RegisterAll(s: State, dues: seq<int>): State {
    if dues == [] then s else Register(RegisterAll(s, dues[..|dues| - 1]), dues[|dues| - 1])
  }

  function Spawned(spawns: Spawns, k: nat): seq<int> {
    if k in spawns then spawns[k] else []
  }

  function Execute(s: State, k: nat, spawns: Spawns): State {
    RegisterAll(Log(s, k), Spawned(spawns, k))
  }

  function Log(s: State, k: nat): State {
    s.(log := s.log + [k], logBlocks := s.logBlocks + [if s.blocks == [] then 0 else |s.blocks| - 1])
  }

  /** executeEvents on the list as it was when it was read. */
  function ExecuteList(s: State, list: seq<nat>, spawns: Spawns): State {
    if list == [] then s else Execute(ExecuteList(s, list[..|list| - 1], spawns), list[|list| - 1], spawns)
  }

  function ExecuteSecond(s: State, t: int, spawns: Spawns): State {
    if t !in s.events then s
    else
      var done := ExecuteList(s, s.events[t], spawns);
      done.(events := done.events - {t})
  }

  function ExecuteUntil(s: State, first: int, end: int, spawns: Spawns): State
    decreases end - first
  {
    if first >= end then s else ExecuteUntil(ExecuteSecond(s, first, spawns), first + 1, end, spawns)
  }

  /** The scheduling part of beginBlocker. */
  function Arrive(s: State, now: int): State {
    s.(start := if s.start == 0 then now else s.start, last := if s.start == 0 then now else s.last,
       now := now, blocks := s.blocks + [now])
  }

  function BeginBlock(s: State, now: int, spawns: Spawns): State {
    var s1 := Arrive(s, now);
    ExecuteUntil(s1, s1.last, now, spawns).(last := now)
  }

  /** Block times are positive and never decrease; messages that register events
      are delivered within a block. */
  datatype Op = Block(now: int, spawns: Spawns) | Registration(due: int)

  predicate Accepted(s: State, op: Op) {
    match op
    case Block(now, _) => s.now <= now && 0 < now
    case Registration(due) => s.start != 0 && s.now <= due
  }

  function Step(s: State, op: Op): State {
    if !Accepted(s, op) then s
    else match op
      case Block(now, spawns) => BeginBlock(s, now, spawns)
      case Registration(due) => Register(s, due)
  }

  function Run(ops: seq<Op>): State {
    if ops == [] then GENESIS else Step(Run(ops[..|ops| - 1]), ops[|ops| - 1])
  }

  // ------------------------------------------------------------------ invariant

  /** Each bucket holds events due at its time, first registered first. */
  ghost predicate Bucket(s: State, t: int) {
    && (forall j :: 0 <= j < |At(s, t)| ==> At(s, t)[j] < |s.dues| && s.dues[At(s, t)[j]] == t)
    && (forall i, j :: 0 <= i < j < |At(s, t)| ==> At(s, t)[i] < At(s, t)[j])
  }

  /** By due time, and within a second in the order of registration. */
  predicate Before(dues: seq<int>, a: nat, b: nat)
    requires a < |dues| && b < |dues|
  {
    dues[a] < dues[b] || (dues[a] == dues[b] && a < b)
  }

  predicate InOrder(dues: seq<int>, log: seq<nat>) {
    && (forall i :: 0 <= i < |log| ==> log[i] < |dues|)
    && (forall i, j :: 0 <= i < j < |log| ==> Before(dues, log[i], log[j]))
  }

  /** Executed are exactly the events due before `t` and the first `j` of the
      bucket at `t`; all others wait in the bucket of their due time. */
  ghost predicate Frontier(s: State, t: int, j: nat) {
    && j <= |At(s, t)|
    && (forall u :: Bucket(s, u))
    && (forall u :: u in s.events ==> t <= u)
    && InOrder(s.dues, s.log)
    && (forall k: nat :: k < |s.dues| && t <= s.dues[k] ==> k in At(s, s.dues[k]))
    && (forall k: nat :: k < |s.dues| && s.dues[k] < t ==> k in s.log)
    && (forall i :: 0 <= i < j ==> At(s, t)[i] in s.log)
    && (forall k: nat :: k in s.log && s.dues[k] >= t ==> s.dues[k] == t && k in At(s, t)[..j])
  }

  predicate OnTimeAt(s: State, i: nat)
    requires i < |s.log| == |s.logBlocks|
  {
    && s.log[i] < |s.dues| && 0 < s.logBlocks[i] < |s.blocks|
    && s.blocks[s.logBlocks[i] - 1] <= s.dues[s.log[i]] < s.blocks[s.logBlocks[i]]
  }

  /** Each executed event ran in the first block later than its due time. */
  ghost predicate OnTime(s: State) {
    && |s.logBlocks| == |s.log|
    && (forall i :: 0 <= i < |s.log| ==> OnTimeAt(s, i))
  }

  predicate NonDecreasing(blocks: seq<int>) {
    forall i, j :: 0 <= i < j < |blocks| ==> blocks[i] <= blocks[j]
  }

  ghost predicate Inv(s: State) {
    && Frontier(s, s.last, 0) && OnTime(s) && NonDecreasing(s.blocks)
    && s.last == s.now
    && (s.blocks == [] <==> s.start == 0)
    && (s.blocks != [] ==> s.blocks[|s.blocks| - 1] == s.now)
    && (s.start == 0 ==> s.events == map[] && s.dues == [] && s.log == [])
  }

  lemma BucketFrame(s: State, s': State, u: int)
    requires Bucket(s, u) && At(s', u) == At(s, u) && s.dues <= s'.dues
    ensures Bucket(s', u)
  {
  }

  lemma FrontierFrame(s: State, s': State, t: int, j: nat)
    requires Frontier(s, t, j) && s'.events == s.events && s'.dues == s.dues && s'.log == s.log
    ensures Frontier(s', t, j)
  {
    hide Bucket, InOrder;
    assert forall u :: At(s', u) == At(s, u);
    forall u
      ensures Bucket(s', u)
    {
      BucketFrame(s, s', u);
    }
  }

  lemma EmptyFrontier(s: State, t: int)
    requires s.events == map[] && s.dues == [] && s.log == []
    ensures Frontier(s, t, 0)
  {
  }

  lemma TimeFrame(s: State, s': State)
    requires OnTime(s) && s'.log == s.log && s'.logBlocks == s.logBlocks && s.dues <= s'.dues && s.blocks <= s'.blocks
    ensures OnTime(s')
  {
    forall i | 0 <= i < |s'.log|
      ensures OnTimeAt(s', i)
    {
      assert OnTimeAt(s, i);
    }
  }

  // --------------------------------------------------------------- registration

  lemma RegisterBuckets(s: State, due: int, u: int)
    requires Bucket(s, due) && Bucket(s, u)
    ensures Bucket(Register(s, due), u)
  {
    var r := Register(s, due);
    assert At(r, u) == if u == due && s.now <= due then At(s, u) + [|s.dues|] else At(s, u);
  }

  lemma RegisterKeepsFrontier(s: State, due: int, t: int, j: nat)
    requires Frontier(s, t, j) && t <= s.now && (t < s.now || j == 0)
    ensures Frontier(Register(s, due), t, j)
    ensures At(Register(s, due), t)[..j] == At(s, t)[..j]
    ensures t < s.now ==> At(Register(s, due), t) == At(s, t)
  {
    hide Bucket;
    var r := Register(s, due);
    forall u
      ensures Bucket(r, u)
    {
      RegisterBuckets(s, due, u);
    }
    assert forall u, k: nat :: k in At(s, u) ==> k in At(r, u);
    assert s.now <= due ==> At(r, due)[|At(s, due)|] == |s.dues|;
  }

  lemma RegisterKeepsTime(s: State, due: int)
    requires OnTime(s)
    ensures OnTime(Register(s, due))
  {
    hide OnTime;
    TimeFrame(s, Register(s, due));
  }

  /** What registration leaves alone. */
  predicate SameRun(s: State, s': State) {
    && s'.start == s.start && s'.now == s.now && s'.last == s.last && s'.blocks == s.blocks
    && s.dues <= s'.dues
  }

  lemma {:induction false} RegisterAllKeeps(s: State, dues: seq<int>, t: int, j: nat)
    requires Frontier(s, t, j) && OnTime(s) && t < s.now
    ensures var r := RegisterAll(s, dues);
      Frontier(r, t, j) && OnTime(r) && SameRun(s, r) && At(r, t) == At(s, t)
  {
    hide Frontier, OnTime, At;
    if dues != [] {
      RegisterAllKeeps(s, dues[..|dues| - 1], t, j);
      var r := RegisterAll(s, dues[..|dues| - 1]);
      RegisterKeepsFrontier(r, dues[|dues| - 1], t, j);
      RegisterKeepsTime(r, dues[|dues| - 1]);
    }
  }

  // ------------------------------------------------------------------ execution

  /** The current block is the first one later than `t`. */
  predicate CurrentIsFirstAfter(s: State, t: int) {
    2 <= |s.blocks| && s.blocks[|s.blocks| - 2] <= t < s.blocks[|s.blocks| - 1] && s.now == s.blocks[|s.blocks| - 1]
  }

  lemma LogKeepsFrontier(s: State, t: int, j: nat)
    requires Frontier(s, t, j) && j < |At(s, t)|
    ensures Frontier(Log(s, At(s, t)[j]), t, j + 1)
  {
    var k := At(s, t)[j];
    var l := Log(s, k);
    assert Bucket(s, t);
    assert At(l, t)[..j + 1] == At(s, t)[..j] + [k];
    forall i | 0 <= i < |s.log|
      ensures Before(s.dues, s.log[i], k)
    {
      assert s.log[i] in s.log;
    }
    forall u
      ensures Bucket(l, u)
    {
      BucketFrame(s, l, u);
    }
    assert l.log[|s.log|] == k;
    assert forall x :: x in s.log ==> x in l.log;
  }

  lemma LogKeepsTime(s: State, t: int, k: nat)
    requires OnTime(s) && k < |s.dues| && s.dues[k] == t && CurrentIsFirstAfter(s, t)
    ensures OnTime(Log(s, k))
  {
    var l := Log(s, k);
    forall i | 0 <= i < |l.log|
      ensures OnTimeAt(l, i)
    {
      assert i < |s.log| ==> OnTimeAt(s, i);
    }
  }

  lemma {:induction false} ExecuteListKeeps(s: State, t: int, j: nat, spawns: Spawns)
    requires Frontier(s, t, 0) && OnTime(s) && CurrentIsFirstAfter(s, t) && j <= |At(s, t)|
    ensures var d := ExecuteList(s, At(s, t)[..j], spawns);
      Frontier(d, t, j) && OnTime(d) && SameRun(s, d) && At(d, t) == At(s, t)
  {
    hide Frontier, OnTime, At, Bucket;
    if j > 0 {
      var list := At(s, t)[..j];
      assert list[..j - 1] == At(s, t)[..j - 1];
      ExecuteListKeeps(s, t, j - 1, spawns);
      var d := ExecuteList(s, list[..j - 1], spawns);
      var k := list[j - 1];
      LogKeepsFrontier(d, t, j - 1);
      BucketDue(d, t, j - 1);
      LogKeepsTime(d, t, k);
      LogKeepsBuckets(d, k, t);
      RegisterAllKeeps(Log(d, k), Spawned(spawns, k), t, j);
    }
  }

  lemma BucketDue(s: State, t: int, j: nat)
    requires Frontier(s, t, j) && j < |At(s, t)|
    ensures At(s, t)[j] < |s.dues| && s.dues[At(s, t)[j]] == t
  {
    assert Bucket(s, t);
  }

  lemma LogKeepsBuckets(s: State, k: nat, t: int)
    ensures At(Log(s, k), t) == At(s, t)
  {
  }

  /** A bucket that was executed to the end is removed; what was registered
      meanwhile lies in later buckets. */
  lemma RemoveKeeps(s: State, t: int)
    requires Frontier(s, t, |At(s, t)|) && OnTime(s)
    ensures var r := s.(events := s.events - {t}); Frontier(r, t + 1, 0) && OnTime(r)
  {
    var r := s.(events := s.events - {t});
    assert At(s, t)[..|At(s, t)|] == At(s, t);
    forall u
      ensures Bucket(r, u)
    {
      BucketFrame(s, if u == t then s else r, u);
    }
    forall k: nat | k < |s.dues| && s.dues[k] < t + 1
      ensures k in s.log
    {
      if s.dues[k] == t {
        assert k in At(s, t);
      }
    }
    TimeFrame(s, r);
  }

  lemma ExecuteSecondKeeps(s: State, t: int, spawns: Spawns)
    requires Frontier(s, t, 0) && OnTime(s) && CurrentIsFirstAfter(s, t)
    ensures var d := ExecuteSecond(s, t, spawns); Frontier(d, t + 1, 0) && OnTime(d) && SameRun(s, d)
  {
    hide Frontier, OnTime, Bucket;
    var list := At(s, t);
    assert list[..|list|] == list;
    if t in s.events {
      ExecuteListKeeps(s, t, |list|, spawns);
      RemoveKeeps(ExecuteList(s, list, spawns), t);
    } else {
      RemoveKeeps(s, t);
      assert s.events - {t} == s.events;
    }
  }

  lemma {:induction false} ExecuteUntilKeeps(s: State, first: int, end: int, spawns: Spawns)
    requires first <= end && Frontier(s, first, 0) && OnTime(s)
    requires first < end ==> CurrentIsFirstAfter(s, first) && end == s.now
    ensures var d := ExecuteUntil(s, first, end, spawns); Frontier(d, end, 0) && OnTime(d) && SameRun(s, d)
    decreases end - first
  {
    hide Frontier, OnTime, ExecuteSecond;
    if first < end {
      ExecuteSecondKeeps(s, first, spawns);
      ExecuteUntilKeeps(ExecuteSecond(s, first, spawns), first + 1, end, spawns);
    }
  }

  lemma ArriveKeeps(s: State, now: int)
    requires Inv(s) && s.now <= now && 0 < now
    ensures var a := Arrive(s, now);
      && Frontier(a, a.last, 0) && OnTime(a) && NonDecreasing(a.blocks)
      && a.last <= now && (a.last < now ==> CurrentIsFirstAfter(a, a.last))
  {
    hide Frontier, OnTime;
    var a := Arrive(s, now);
    TimeFrame(s, a);
    if s.start == 0 {
      EmptyFrontier(a, now);
    } else {
      FrontierFrame(s, a, s.last, 0);
    }
  }

  // -------------------------------------------------------------- whole runs

  lemma BlockKeeps(s: State, now: int, spawns: Spawns)
    requires Inv(s) && s.now <= now && 0 < now
    ensures Inv(BeginBlock(s, now, spawns))
  {
    hide Frontier, OnTime, ExecuteUntil;
    ArriveKeeps(s, now);
    var a := Arrive(s, now);
    ExecuteUntilKeeps(a, a.last, now, spawns);
    var d := ExecuteUntil(a, a.last, now, spawns);
    FrontierFrame(d, d.(last := now), now, 0);
    TimeFrame(d, d.(last := now));
  }

  lemma StepKeeps(s: State, op: Op)
    requires Inv(s)
    ensures Inv(Step(s, op))
  {
    hide Frontier, OnTime, BeginBlock, NonDecreasing;
    if Accepted(s, op) {
      match op
      case Block(now, spawns) => BlockKeeps(s, now, spawns);
      case Registration(due) =>
        RegisterKeepsFrontier(s, due, s.last, 0);
        RegisterKeepsTime(s, due);
    }
  }

  lemma {:induction false} RunKeepsInv(ops: seq<Op>)
    ensures Inv(Run(ops))
  {
    hide Inv, Step;
    if ops == [] {
      GenesisInv();
    } else {
      RunKeepsInv(ops[..|ops| - 1]);
      StepKeeps(Run(ops[..|ops| - 1]), ops[|ops| - 1]);
    }
  }

  lemma GenesisInv()
    ensures Inv(GENESIS)
  {
    EmptyFrontier(GENESIS, 0);
  }

  /** Executed are exactly the events due before `f`. */
  ghost predicate ExecutedIffDue(s: State, f: int) {
    forall k: nat :: k < |s.dues| ==> (k in s.log <==> s.dues[k] < f)
  }

  /** All others wait in the bucket of their due time. */
  ghost predicate WaitingIffNotDue(s: State, f: int) {
    forall k: nat :: k < |s.dues| ==> (k in At(s, s.dues[k]) <==> f <= s.dues[k])
  }

  /** Nothing else waits. */
  ghost predicate BucketsAreDue(s: State, f: int) {
    && (forall t :: At(s, t) != [] ==> f <= t)
    && (forall t, j :: 0 <= j < |At(s, t)| ==> At(s, t)[j] < |s.dues| && s.dues[At(s, t)[j]] == t)
  }

  /** Each registered event was executed, if it was due before `f`, or else waits
      in the bucket of its due time; nothing else was executed or waits. Nothing
      was executed twice, since the log is strictly ordered by due time and
      registration. */
  ghost predicate EachOnce(s: State, f: int) {
    InOrder(s.dues, s.log) && ExecutedIffDue(s, f) && WaitingIffNotDue(s, f) && BucketsAreDue(s, f)
  }

  lemma EveryEventRunsOnce(ops: seq<Op>)
    ensures EachOnce(Run(ops), Run(ops).last)
  {
    hide Run, OnTime, NonDecreasing, Frontier, EachOnce;
    RunKeepsInv(ops);
    FrontierMeaning(Run(ops), Run(ops).last);
  }

  lemma FrontierExecuted(s: State, f: int)
    requires Frontier(s, f, 0)
    ensures InOrder(s.dues, s.log) && ExecutedIffDue(s, f)
  {
    hide Bucket, InOrder;
  }

  lemma FrontierWaiting(s: State, f: int)
    requires Frontier(s, f, 0)
    ensures WaitingIffNotDue(s, f)
  {
    hide Bucket, InOrder;
    forall k: nat | k < |s.dues|
      ensures k in At(s, s.dues[k]) <==> f <= s.dues[k]
    {
      assert k in At(s, s.dues[k]) ==> s.dues[k] in s.events;
    }
  }

  lemma FrontierBuckets(s: State, f: int)
    requires Frontier(s, f, 0)
    ensures BucketsAreDue(s, f)
  {
    hide Bucket, InOrder;
    forall t, j | 0 <= j < |At(s, t)|
      ensures At(s, t)[j] < |s.dues| && s.dues[At(s, t)[j]] == t
    {
      BucketEntry(s, t, j);
    }
  }

  lemma FrontierMeaning(s: State, f: int)
    requires Frontier(s, f, 0)
    ensures EachOnce(s, f)
  {
    hide Frontier, InOrder, ExecutedIffDue, WaitingIffNotDue, BucketsAreDue;
    FrontierExecuted(s, f);
    FrontierWaiting(s, f);
    FrontierBuckets(s, f);
  }

  lemma BucketEntry(s: State, t: int, j: nat)
    requires Bucket(s, t) && j < |At(s, t)|
    ensures At(s, t)[j] < |s.dues| && s.dues[At(s, t)[j]] == t
  {
  }

  /** ... and it was executed in the first block later than its due time: the
      blocks later than that are this one and all after it. */
  lemma EventsRunOnTime(ops: seq<Op>, i: nat)
    requires i < |Run(ops).log|
    ensures var s := Run(ops);
      && |s.logBlocks| == |s.log| && s.log[i] < |s.dues| && s.logBlocks[i] < |s.blocks|
      && forall b :: 0 <= b < |s.blocks| ==> (s.dues[s.log[i]] < s.blocks[b] <==> s.logBlocks[i] <= b)
  {
    hide Run, Frontier, OnTimeAt, NonDecreasing;
    RunKeepsInv(ops);
    FirstBlockAfter(Run(ops), i);
  }

  lemma FirstBlockAfter(s: State, i: nat)
    requires |s.logBlocks| == |s.log| && i < |s.log| && OnTimeAt(s, i) && NonDecreasing(s.blocks)
    ensures forall b :: 0 <= b < |s.blocks| ==> (s.dues[s.log[i]] < s.blocks[b] <==> s.logBlocks[i] <= b)
    ensures s.log[i] < |s.dues| && s.logBlocks[i] < |s.blocks|
  {
    var at := s.logBlocks[i];
    assert forall b :: 0 <= b < |s.blocks| && b < at ==> s.blocks[b] <= s.blocks[at - 1];
    assert forall b :: 0 <= b < |s.blocks| && at <= b ==> s.blocks[at] <= s.blocks[b];
  }

  // ---------------------------------------------------------- block boundaries

  function Front(log: seq<nat>): seq<nat>
    requires log != []
  {
    log[..|log| - 1]
  }

  lemma LastOfLog(dues: seq<int>, a: seq<nat>, b: seq<nat>)
    requires InOrder(dues, a) && InOrder(dues, b) && a != []
    requires forall k: nat :: k in a <==> k in b
    ensures b != [] && a[|a| - 1] == b[|b| - 1]
    ensures forall k: nat :: k in Front(a) <==> k in Front(b)
  {
    var x := a[|a| - 1];
    assert x in b;
    var y := b[|b| - 1];
    assert y in a;
    var i :| 0 <= i < |a| && a[i] == y;
    var j :| 0 <= j < |b| && b[j] == x;
    assert x == y;
    forall k: nat
      ensures k in Front(a) <==> k in a && k != x
      ensures k in Front(b) <==> k in b && k != x
    {
      LastIsNotBefore(dues, a, k);
      LastIsNotBefore(dues, b, k);
    }
  }

  lemma LastIsNotBefore(dues: seq<int>, log: seq<nat>, k: nat)
    requires InOrder(dues, log) && log != []
    ensures k in Front(log) <==> k in log && k != log[|log| - 1]
  {
    var m := |log| - 1;
    assert log == log[..m] + [log[m]];
    if k in log[..m] {
      var i :| 0 <= i < m && log[..m][i] == k;
      assert Before(dues, log[i], log[m]);
    }
  }

  /** There is only one such log. */
  lemma {:induction false} LogIsUnique(dues: seq<int>, a: seq<nat>, b: seq<nat>)
    requires InOrder(dues, a) && InOrder(dues, b)
    requires forall k: nat :: k in a <==> k in b
    ensures a == b
  {
    if a == [] {
      if b != [] {
        LastOfLog(dues, b, a);
      }
    } else {
      LastOfLog(dues, a, b);
      LogIsUnique(dues, Front(a), Front(b));
      assert a == Front(a) + [a[|a| - 1]] && b == Front(b) + [b[|b| - 1]];
    }
  }

  /** The order of execution does not depend on how time is cut into blocks: two
      runs that registered the same events and reached the same time executed
      the same events in the same order. */
  lemma OrderIgnoresBlocks(a: seq<Op>, b: seq<Op>)
    requires Run(a).dues == Run(b).dues && Run(a).last == Run(b).last
    ensures Run(a).log == Run(b).log
  {
    hide Run;
    EveryEventRunsOnce(a);
    EveryEventRunsOnce(b);
    var s, r := Run(a), Run(b);
    forall k: nat
      ensures k in s.log <==> k in r.log
    {
      assert k in s.log ==> k < |s.dues|;
      assert k in r.log ==> k < |r.dues|;
    }
    LogIsUnique(s.dues, s.log, r.log);
  }

  // ------------------------------------------------------------- coin returns

  /** The times of RegisterCoinReturnEvent. */
  function Instalments(now: int, times: nat, interval: int): (r: seq<int>)
    ensures |r| == times
    ensures forall i :: 0 <= i < times ==> r[i] == now + interval * (i + 1)
  {
    seq(times, i => now + interval * (i + 1))
  }

  // ------------------------------------------------------------------- in place

  class Chain {
    var start: int
    var now: int
    var last: int
    var events: map<int, seq<nat>>
    var dues: seq<int>
    var blocks: seq<int>
    var log: seq<nat>
    var logBlocks: seq<nat>

    constructor ()
      ensures St() == GENESIS
    {
      start, now, last, events := 0, 0, 0, map[];
      dues, blocks, log, logBlocks := [], [], [], [];
    }

    function St(): State
      reads this
    {
      State(start, now, last, events, dues, blocks, log, logBlocks)
    }

    method RegisterEventAtTime(due: int) returns (ok: bool)
      modifies `events, `dues
      ensures ok == (now <= due)
      ensures St() == Register(old(St()), due)
    {
      if due < now {
        return false;
      }
      var list: seq<nat> := [];
      if due in events {
        list := events[due];
      }
      list := list + [|dues|];
      events := events[due := list];
      dues := dues + [due];
      ok := true;
    }

    /** Stops at the first instalment that is refused. */
    method RegisterCoinReturnEvent(times: nat, interval: int) returns (ok: bool)
      modifies `events, `dues
      ensures ok == (times == 0 || 0 <= interval)
      ensures St() == if ok then RegisterAll(old(St()), Instalments(now, times, interval)) else old(St())
    {
      var i := 0;
      ghost var all := Instalments(now, times, interval);
      while i < times
        invariant 0 <= i <= times && (i > 0 ==> 0 <= interval)
        invariant St() == RegisterAll(old(St()), all[..i])
      {
        assert all[..i + 1][..i] == all[..i];
        InstalmentAccepted(interval, i);
        ok := RegisterEventAtTime(now + interval * (i + 1));
        if !ok {
          return;
        }
        i := i + 1;
      }
      assert all[..times] == all;
      ok := true;
    }

    method ExecuteEvents(list: seq<nat>, spawns: Spawns)
      modifies `events, `dues, `log, `logBlocks
      ensures St() == ExecuteList(old(St()), list, spawns)
    {
      var i := 0;
      while i < |list|
        invariant 0 <= i <= |list|
        invariant St() == ExecuteList(old(St()), list[..i], spawns)
      {
        assert list[..i + 1][..i] == list[..i];
        ExecuteEvent(list[i], spawns);
        i := i + 1;
      }
      assert list[..|list|] == list;
    }

    method ExecuteEvent(k: nat, spawns: Spawns)
      modifies `events, `dues, `log, `logBlocks
      ensures St() == Execute(old(St()), k, spawns)
    {
      log := log + [k];
      logBlocks := logBlocks + [if blocks == [] then 0 else |blocks| - 1];
      var asked := Spawned(spawns, k);
      var i := 0;
      while i < |asked|
        invariant 0 <= i <= |asked|
        invariant St() == RegisterAll(Log(old(St()), k), asked[..i])
      {
        assert asked[..i + 1][..i] == asked[..i];
        var _ := RegisterEventAtTime(asked[i]);
        i := i + 1;
      }
      assert asked[..|asked|] == asked;
    }

    method ExecuteTimeEvents(spawns: Spawns)
      requires last <= now
      modifies `last, `events, `dues, `log, `logBlocks
      ensures St() == ExecuteUntil(old(St()), old(last), now, spawns).(last := now)
    {
      var i := last;
      while i < now
        invariant last <= i <= now && last == old(last)
        invariant ExecuteUntil(St(), i, now, spawns) == ExecuteUntil(old(St()), last, now, spawns)
      {
        if i in events {
          ExecuteEvents(events[i], spawns);
          events := events - {i};
        }
        i := i + 1;
      }
      last := now;
    }

    method BeginBlock(time: int, spawns: Spawns)
      requires Inv(St()) && now <= time && 0 < time
      modifies this
      ensures St() == Step(old(St()), Block(time, spawns)) && Inv(St())
    {
      hide Inv, ExecuteUntil;
      ArriveKeeps(St(), time);
      StepKeeps(St(), Block(time, spawns));
      now := time;
      blocks := blocks + [time];
      if start == 0 {
        start := time;
        last := time;
      }
      ExecuteTimeEvents(spawns);
    }
  }

  lemma InstalmentAccepted(interval: int, i: nat)
    ensures 0 <= interval * (i + 1) <==> 0 <= interval
  {
    if interval < 0 {
      assert interval * (i + 1) <= interval;
    }
  }
}
