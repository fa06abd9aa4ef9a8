/** When a call of StaticThreadPool::Join hangs (tasks/condvar/thread-pool/tp/static_thread_pool.cpp:33-41).

    Join sleeps in FutexWait(0), that is, only once the counter is zero, and then nobody is left to
    wake it.  So it hangs on some schedule exactly if work is outstanding when it is called. */
module JoinHang {
  import opened Runs
  import opened Counting
  import opened ThreadPool
  import Q = CloseableQueue

  // ---- The pool left to itself comes to rest

  /** Workers and submitting clients go on with what they have begun. */
  predicate PoolStep(a: Action) {
    a.SubmitPut? || a.TakeTask? || a.SubmitChild? || a.ChildPut? || a.Finish? || a.Decrement? || a.Notify?
  }

  /** Join is before its sleep, so the queue is open. */
  ghost predicate Working(s: State) {
    Inv(s) && (s.joiner == Loading || s.joiner == ToFutex)
  }

  /** Steps that a queued task will take, with everything it submits and everybody it wakes. */
  function Cost(t: Task): nat {
    4 + CostOf(t.children)
  }

  function CostOf(ts: seq<Task>): nat {
    if ts == [] then 0 else Cost(ts[0]) + 3 + CostOf(ts[1..])
  }

  function WorkerCost(w: Worker): nat {
    match w
    case Taking => 0
    case Running(_, rest) => 3 + CostOf(rest)
    case Putting(_, child, rest) => 5 + Cost(child) + CostOf(rest)
    case ToDecrement => 2
    case ToNotify => 1
    case Exited => 0
  }

  function ClientCost(c: Client): nat {
    if c.Submitting? then Cost(c.task) + 2 else 0
  }

  function Effort(s: State): int {
    Sum(s.workers, WorkerCost) + Sum(s.clients, ClientCost) + Sum(s.q.items, Cost) + |s.workers| - |s.q.waiting|
  }

  lemma {:induction false} Fits(a: set<nat>, n: nat)
    requires forall x :: x in a ==> x < n
    ensures |a| <= n
  {
    if n == 0 {
      assert a == {};
    } else {
      Fits(a - {n - 1}, n - 1);
      assert |a| <= |a - {n - 1}| + 1 by {
        if n - 1 in a { assert a == (a - {n - 1}) + {n - 1}; } else { assert a == a - {n - 1}; }
      }
    }
  }

  lemma EffortIsNatural(s: State)
    requires Takers(s)
    ensures Effort(s) >= 0
  {
    forall t | t in s.q.waiting ensures t < |s.workers| {
      assert t in s.q.waiting + s.q.woken;
    }
    Fits(s.q.waiting, |s.workers|);
  }

  /** What a put costs: the item itself, and the thread it wakes. */
  lemma PutCost(q: Q.Queue<Task>, t: Task, w: nat)
    requires Q.Put(q, t, w).Some? && !q.closed
    ensures var q' := Q.Put(q, t, w).value;
      && Sum(q'.items, Cost) == Sum(q.items, Cost) + Cost(t)
      && |q.waiting| <= |q'.waiting| + 1
  {
    SumAppend(q.items, t, Cost);
    if w in q.waiting {
      assert q.waiting == (q.waiting - {w}) + {w};
    }
  }

  lemma SubmitPutDrops(s: State, c: nat, w: nat)
    requires !s.q.closed && Next(s, SubmitPut(c, w)).Some?
    ensures Effort(Next(s, SubmitPut(c, w)).value) < Effort(s)
  {
    PutCost(s.q, s.clients[c].task, w);
    SumUpdate(s.clients, c, Outside, ClientCost);
  }

  lemma ChildPutDrops(s: State, i: nat, w: nat)
    requires !s.q.closed && Next(s, ChildPut(i, w)).Some?
    ensures Effort(Next(s, ChildPut(i, w)).value) < Effort(s)
  {
    var Putting(task, child, rest) := s.workers[i];
    PutCost(s.q, child, w);
    SumUpdate(s.workers, i, Running(task, rest), WorkerCost);
  }

  lemma TakeDrops(s: State, i: nat)
    requires !s.q.closed && Next(s, TakeTask(i)).Some?
    ensures Effort(Next(s, TakeTask(i)).value) < Effort(s)
  {
    var s' := Next(s, TakeTask(i)).value;
    if s.q.items == [] {
      assert s'.workers == s.workers && |s'.q.waiting| == |s.q.waiting| + 1;
    } else {
      SumUpdate(s.workers, i, s'.workers[i], WorkerCost);
    }
  }

  lemma OwnDrops(s: State, a: Action)
    requires Next(s, a).Some? && (a.SubmitChild? || a.Finish? || a.Decrement? || a.Notify?)
    ensures Effort(Next(s, a).value) < Effort(s)
  {
    SumUpdate(s.workers, a.i, Next(s, a).value.workers[a.i], WorkerCost);
  }

  lemma PoolStepDrops(s: State, a: Action)
    requires !s.q.closed && PoolStep(a) && Next(s, a).Some?
    ensures Effort(Next(s, a).value) < Effort(s)
  {
    match a
    case SubmitPut(c, w) => SubmitPutDrops(s, c, w);
    case ChildPut(i, w) => ChildPutDrops(s, i, w);
    case TakeTask(i) => TakeDrops(s, i);
    case _ => OwnDrops(s, a);
  }

  lemma PoolStepFrame(s: State, a: Action)
    requires (s.joiner == Loading || s.joiner == ToFutex) && PoolStep(a) && Next(s, a).Some?
    ensures var s' := Next(s, a).value;
      s'.joiner == s.joiner && |s'.workers| == |s.workers| && s'.count >= s.count - 1
  {}

  lemma PoolStepWorks(s: State, a: Action)
    requires Working(s) && PoolStep(a) && Next(s, a).Some?
    ensures Working(Next(s, a).value) && 0 <= Effort(Next(s, a).value) < Effort(s)
  {
    InvStep(s, a);
    PoolStepFrame(s, a);
    PoolStepDrops(s, a);
    EffortIsNatural(Next(s, a).value);
  }

  /** Short of rest, somebody can step. */
  lemma PoolCanStep(s: State) returns (a: Action)
    requires Working(s) && !AtRest(s)
    ensures PoolStep(a) && Next(s, a).Some?
  {
    if c: nat :| c < |s.clients| && s.clients[c] != Outside {
      a := SubmitPut(c, Pick(s.q));
    } else {
      var i: nat :| i < |s.workers| && !(s.workers[i] == Taking && i in s.q.waiting);
      match s.workers[i] {
        case Taking => a := TakeTask(i);
        case Running(_, rest) => a := if rest == [] then Finish(i) else SubmitChild(i);
        case Putting(_, _, _) => a := ChildPut(i, Pick(s.q));
        case ToDecrement => a := Decrement(i);
        case ToNotify => a := Notify(i);
      }
    }
  }

  lemma Prepend(s: State, a: Action, rest: seq<Action>, s': State) returns (acts: seq<Action>)
    requires PoolStep(a) && Next(s, a).Some?
    requires AllDriven(rest) && Exec(Next, Next(s, a).value, rest) == Some(s')
    ensures AllDriven(acts) && Exec(Next, s, acts) == Some(s')
  {
    acts := [a] + rest;
    hide Next;
    First(Next, s, a, rest);
  }

  /** A schedule of the pool's own steps that leads to rest. */
  lemma {:induction false} RunToRest(s: State) returns (acts: seq<Action>, s': State)
    requires Working(s)
    ensures AllDriven(acts) && Exec(Next, s, acts) == Some(s')
    ensures Working(s') && AtRest(s') && s'.joiner == s.joiner && |s'.workers| == |s.workers|
    decreases Effort(s)
  {
    if AtRest(s) {
      acts, s' := [], s;
    } else {
      var a := PoolCanStep(s);
      PoolStepWorks(s, a);
      PoolStepFrame(s, a);
      hide Working, AtRest, Next;
      var s1 := Next(s, a).value;
      acts, s' := RunToRest(s1);
      acts := Prepend(s, a, acts, s');
    }
  }

  /** A schedule to a moment when Join, loading the counter, would see work: at once, unless the
      counter reads zero with a multiple of 2^32 tasks outstanding. */
  lemma {:induction false} RunToWork(s: State) returns (acts: seq<Action>, s': State)
    requires Working(s) && |s.workers| > 0 && s.joiner == Loading && s.count > 0
    ensures AllDriven(acts) && Exec(Next, s, acts) == Some(s')
    ensures Working(s') && s'.joiner == Loading && s'.word != 0 && |s'.workers| == |s.workers|
    decreases Effort(s)
  {
    if s.word != 0 {
      acts, s' := [], s;
    } else {
      assert s.count > 1;
      if AtRest(s) {
        RestMeansDone(s);
      }
      var a := PoolCanStep(s);
      PoolStepWorks(s, a);
      PoolStepFrame(s, a);
      hide Working, AtRest, Next;
      var s1 := Next(s, a).value;
      acts, s' := RunToWork(s1);
      acts := Prepend(s, a, acts, s');
    }
  }

  predicate AllDriven(acts: seq<Action>) {
    forall k :: 0 <= k < |acts| ==> Driven(acts[k])
  }

  // ---- The hanging schedule

  /** Without any new call from outside, some schedule puts Join to sleep for good. */
  ghost predicate MayHang(s: State) {
    exists acts, s' :: AllDriven(acts) && Exec(Next, s, acts) == Some(s') && s'.joiner == Parked && Stuck(s')
  }

  lemma LoadSeesWork(s: State)
    requires Working(s) && s.joiner == Loading && s.word != 0
    ensures Next(s, Load) == Some(s.(joiner := ToFutex)) && Working(s.(joiner := ToFutex))
  {
    InvStep(s, Load);
  }

  lemma SleepAtRest(s: State)
    requires Working(s) && AtRest(s) && |s.workers| > 0 && s.joiner == ToFutex
    ensures Exec(Next, s, [Check] + [Park]) == Some(s.(joiner := Parked)) && Stuck(s.(joiner := Parked))
  {
    RestMeansDone(s);
    var s1, s2 := s.(joiner := Checked), s.(joiner := Parked);
    assert Next(s, Check) == Some(s1) && Next(s1, Park) == Some(s2);
    First(Next, s, Check, [Park]);
    First(Next, s1, Park, []);
    assert [Park] + [] == [Park];
    RestIsStuck(s2);
  }

  lemma OutstandingWorkMayHang(s: State)
    requires Working(s) && |s.workers| > 0 && s.joiner == Loading && s.count > 0
    ensures MayHang(s)
  {
    hide Next, Stuck, AtRest, Working, Driven;
    var before, s1 := RunToWork(s);
    LoadSeesWork(s1);
    var s2 := s1.(joiner := ToFutex);
    var pool, s3 := RunToRest(s2);
    SleepAtRest(s3);
    var s4 := s3.(joiner := Parked);
    var sleep := [Check] + [Park];
    First(Next, s1, Load, pool + sleep);
    Split(Next, s2, pool, sleep);
    Split(Next, s, before, [Load] + (pool + sleep));
    var acts := before + ([Load] + (pool + sleep));
    assert Exec(Next, s, acts) == Some(s4);
    assert AllDriven(acts) by {
      assert Driven(Load) && Driven(Check) && Driven(Park) by { DrivenJoin(); }
    }
  }

  lemma DrivenJoin()
    ensures Driven(Load) && Driven(Check) && Driven(Park)
  {}

  // ---- With nothing outstanding

  /** The counter is zero, so all that Join and the pool still do is to end. */
  ghost predicate Ending(s: State) {
    Inv(s) && s.count == 0 && (s.joiner == Loading || SawZero(s.joiner))
  }

  /** Nothing is in anybody's hands. */
  ghost predicate Idle(s: State) {
    && s.q.items == [] && s.count == 0
    && (forall c :: 0 <= c < |s.clients| ==> s.clients[c] == Outside)
    && (forall i :: 0 <= i < |s.workers| ==>
          s.workers[i] == Taking || s.workers[i] == ToNotify || s.workers[i] == Exited)
  }

  /** What can still happen then. */
  lemma IdleMoves(s: State, a: Action)
    requires Idle(s) && Driven(a) && Next(s, a).Some?
    requires s.joiner == Loading || SawZero(s.joiner) || s.joiner == Parked
    requires s.word == 0
    ensures var s' := Next(s, a).value;
      && s'.count == 0
      && (s.joiner == Loading || SawZero(s.joiner) ==> s'.joiner == Loading || SawZero(s'.joiner))
      && (s.joiner == Parked ==> (a.Notify? && s'.joiner == Loading) || (a.TakeTask? && s'.joiner == Parked))
  {}

  lemma EndingStep(s: State, a: Action)
    requires Ending(s) && Driven(a) && Next(s, a).Some?
    ensures Ending(Next(s, a).value)
  {
    NothingAtZero(s);
    InvStep(s, a);
    hide Inv;
    IdleMoves(s, a);
  }

  function EndingCost(w: Worker): nat {
    match w
    case Taking => 2
    case ToNotify => 3
    case _ => 0
  }

  function JoinerCost(j: Joiner, workers: nat): nat {
    match j
    case Loading => workers + 3
    case ToClose => workers + 2
    case Joining => 1
    case _ => 0
  }

  /** Bounds what is left to do when the counter is zero. */
  function EndingEffort(s: State): int {
    Sum(s.workers, EndingCost) + JoinerCost(s.joiner, |s.workers|) + |s.workers| - |s.q.waiting|
  }

  lemma EndingIsNatural(s: State)
    requires Takers(s)
    ensures EndingEffort(s) >= 0 && |s.q.waiting| <= |s.workers|
  {
    forall t | t in s.q.waiting ensures t < |s.workers| {
      assert t in s.q.waiting + s.q.woken;
    }
    Fits(s.q.waiting, |s.workers|);
  }

  /** What can still happen then. */
  lemma EndingSteps(s: State, a: Action)
    requires Ending(s) && Driven(a) && Next(s, a).Some?
    ensures a.TakeTask? || a.Notify? || a == Load || a == JoinClose || a == JoinDone
    ensures s.q.items == []
  {
    NothingAtZero(s);
  }

  lemma EndingWorkerDrops(s: State, a: Action)
    requires s.q.items == [] && Next(s, a).Some? && s.joiner != Parked && (a.TakeTask? || a.Notify?)
    ensures EndingEffort(Next(s, a).value) < EndingEffort(s)
  {
    var s' := Next(s, a).value;
    SumUpdate(s.workers, a.i, s'.workers[a.i], EndingCost);
    if a.TakeTask? && !s.q.closed {
      assert s'.workers == s.workers && |s'.q.waiting| == |s.q.waiting| + 1;
    }
  }

  lemma EndingDrops(s: State, a: Action)
    requires Ending(s) && Driven(a) && Next(s, a).Some?
    ensures Ending(Next(s, a).value) && 0 <= EndingEffort(Next(s, a).value) < EndingEffort(s)
  {
    EndingStep(s, a);
    EndingSteps(s, a);
    EndingIsNatural(s);
    EndingIsNatural(Next(s, a).value);
    hide Inv;
    if a.TakeTask? || a.Notify? {
      EndingWorkerDrops(s, a);
    }
  }

  lemma EndingGoesOn(s: State)
    requires Ending(s) && |s.workers| > 0 && s.joiner != Returned
    ensures !Stuck(s)
  {
    if Stuck(s) {
      hide Stuck;
      StuckJoin(s);
    }
  }

  lemma {:induction false} EndingEnds(s: State, acts: seq<Action>, s': State)
    requires Ending(s) && AllDriven(acts) && Exec(Next, s, acts) == Some(s')
    ensures Ending(s') && 0 <= |acts| + EndingEffort(s') <= EndingEffort(s) && EndingEffort(s') >= 0
    decreases |acts|
  {
    if acts == [] {
      EndingIsNatural(s);
    } else {
      EndingDrops(s, acts[0]);
      hide Next, Ending, EndingEffort, Driven;
      EndingEnds(Next(s, acts[0]).value, acts[1..], s');
    }
  }

  /** With nothing outstanding when it begins, Join returns: while no new call comes from outside,
      the steps of every schedule are bounded, and before Join has returned there is always one. */
  lemma JoinReturnsWhenNothingIsOutstanding(s: State, acts: seq<Action>, s': State)
    requires Reachable(s) && s.joiner == Loading && s.count == 0
    requires AllDriven(acts) && Exec(Next, s, acts) == Some(s') && |s'.workers| > 0
    ensures |acts| <= EndingEffort(s)
    ensures s'.joiner == Returned || exists a: Action :: Driven(a) && Next(s', a).Some?
  {
    ReachableInv(s);
    hide Next, Inv, Driven, EndingEffort;
    EndingEnds(s, acts, s');
    if s'.joiner != Returned {
      EndingGoesOn(s');
    }
  }

  /** Join may hang, without any new call from outside, exactly if work is outstanding when it
      begins: mid-submit, queued or being executed.  Otherwise it is sure to return. */
  lemma JoinMayHangExactlyWhenWorkIsOutstanding(s: State)
    requires Reachable(s) && |s.workers| > 0 && s.joiner == Loading
    ensures MayHang(s) <==> s.count > 0
  {
    ReachableInv(s);
    if s.count > 0 {
      OutstandingWorkMayHang(s);
    } else {
      forall acts, s' | AllDriven(acts) && Exec(Next, s, acts) == Some(s') ensures s'.joiner != Parked {
        EndingEnds(s, acts, s');
      }
    }
  }

  // ---- The worker's notification

  /** Some worker has brought the counter to zero and is about to notify. */
  ghost predicate Notifying(s: State) {
    exists i: nat :: i < |s.workers| && s.workers[i] == ToNotify
  }

  /** The counter is zero, and Join is on its way out or about to be woken. */
  ghost predicate Saved(s: State) {
    Inv(s) && s.count == 0 && (s.joiner == Loading || SawZero(s.joiner) || (s.joiner == Parked && Notifying(s)))
  }

  lemma SavedStep(s: State, a: Action)
    requires Saved(s) && Driven(a) && Next(s, a).Some?
    ensures Saved(Next(s, a).value)
  {
    NothingAtZero(s);
    InvStep(s, a);
    hide Inv;
    IdleMoves(s, a);
    if s.joiner == Parked {
      var i: nat :| i < |s.workers| && s.workers[i] == ToNotify;
      NotifierStays(s, a, i);
    }
  }

  lemma NotifierStays(s: State, a: Action, i: nat)
    requires i < |s.workers| && s.workers[i] == ToNotify && Next(s, a).Some?
    ensures a.Notify? || (i < |Next(s, a).value.workers| && Next(s, a).value.workers[i] == ToNotify)
  {}

  /** A worker of the idle pool falls asleep while the queue is open. */
  lemma FallsAsleep(s: State, i: nat)
    requires s.q.items == [] && !s.q.closed && Next(s, TakeTask(i)).Some?
    ensures var s' := Next(s, TakeTask(i)).value;
      && s'.workers == s.workers && s'.joiner == s.joiner && s'.count == s.count
      && |s'.q.waiting| == |s.q.waiting| + 1
  {}

  lemma OnlyNotifiersNotify(s: State, i: nat)
    requires Next(s, Notify(i)).Some?
    ensures i < |s.workers| && s.workers[i] == ToNotify
  {}

  lemma {:induction false} SavedRun(s: State, acts: seq<Action>, s': State)
    requires Saved(s) && AllDriven(acts) && Exec(Next, s, acts) == Some(s')
    ensures Saved(s') && |s'.workers| == |s.workers|
    decreases |acts|
  {
    if acts != [] {
      SavedStep(s, acts[0]);
      WorkersStay(s, acts[0]);
      hide Next, Saved, Driven;
      SavedRun(Next(s, acts[0]).value, acts[1..], s');
    }
  }

  lemma WorkersStay(s: State, a: Action)
    requires Next(s, a).Some?
    ensures |Next(s, a).value.workers| == |s.workers|
  {}

  lemma SavedGoesOn(s: State)
    requires Saved(s) && |s.workers| > 0 && Stuck(s)
    ensures s.joiner == Returned
  {
    if s.joiner == Parked {
      var i: nat :| i < |s.workers| && s.workers[i] == ToNotify;
      StuckWorker(s, i);
    } else if s.joiner != Returned {
      hide Stuck;
      StuckJoin(s);
    }
  }

  /** A parked Join for which a notification is under way returns, under every schedule. */
  lemma NotifiedJoinReturns(s: State, acts: seq<Action>, s': State)
    requires Reachable(s) && |s.workers| > 0 && s.joiner == Parked && s.count == 0 && Notifying(s)
    requires AllDriven(acts) && Exec(Next, s, acts) == Some(s') && Stuck(s')
    ensures s'.joiner == Returned
  {
    ReachableInv(s);
    hide Next, Inv, Stuck, Driven;
    SavedRun(s, acts, s');
    SavedGoesOn(s');
  }

  /** Parked at zero with no notification under way: all that happens is that takers fall asleep. */
  ghost predicate Forsaken(s: State) {
    Inv(s) && s.count == 0 && s.joiner == Parked && !Notifying(s)
  }

  lemma ForsakenStep(s: State, a: Action)
    requires Forsaken(s) && Driven(a) && Next(s, a).Some?
    ensures Forsaken(Next(s, a).value) && a.TakeTask?
    ensures |Next(s, a).value.q.waiting| == |s.q.waiting| + 1 <= |s.workers|
  {
    NothingAtZero(s);
    InvStep(s, a);
    ParkedIsOpen(s);
    EndingIsNatural(Next(s, a).value);
    WorkersStay(s, a);
    hide Inv, Next, EndingEffort;
    IdleMoves(s, a);
    if a.Notify? {
      OnlyNotifiersNotify(s, a.i);
    } else {
      FallsAsleep(s, a.i);
    }
  }

  lemma ParkedIsOpen(s: State)
    requires Inv(s) && s.joiner == Parked
    ensures !s.q.closed
  {}

  /** Without one it sleeps for good, under every schedule: it never leaves its sleep, and soon
      nothing moves any more. */
  lemma {:induction false} ForsakenJoinSleeps(s: State, acts: seq<Action>, s': State)
    requires Forsaken(s) && AllDriven(acts) && Exec(Next, s, acts) == Some(s')
    ensures Forsaken(s') && s'.joiner == Parked && |acts| <= |s.workers|
    ensures |acts| + |s.q.waiting| == |s'.q.waiting| <= |s.workers| == |s'.workers|
    decreases |acts|
  {
    if acts == [] {
      EndingIsNatural(s);
    } else {
      ForsakenStep(s, acts[0]);
      WorkersStay(s, acts[0]);
      hide Next, Forsaken, Driven;
      ForsakenJoinSleeps(Next(s, acts[0]).value, acts[1..], s');
    }
  }

  lemma ForsakenRunsDown(s: State) returns (acts: seq<Action>, s': State)
    requires Forsaken(s)
    ensures AllDriven(acts) && Exec(Next, s, acts) == Some(s') && s'.joiner == Parked && Stuck(s')
    decreases |s.workers| - |s.q.waiting|
  {
    hide Forsaken;
    if Stuck(s) {
      acts, s' := [], s;
      assert s.joiner == Parked by { ForsakenIsParked(s); }
    } else {
      var a: Action :| Driven(a) && Next(s, a).Some?;
      ForsakenStep(s, a);
      WorkersStay(s, a);
      hide Next, Forsaken, Driven, Stuck;
      acts, s' := ForsakenRunsDown(Next(s, a).value);
      First(Next, s, a, acts);
      acts := [a] + acts;
    }
  }

  lemma ForsakenIsParked(s: State)
    requires Forsaken(s)
    ensures s.joiner == Parked
  {}

  /** Whether a Join that sleeps at zero is lost: exactly if no worker is about to notify. */
  lemma SleepIsForGoodExactlyWithoutNotifier(s: State)
    requires Reachable(s) && |s.workers| > 0 && s.joiner == Parked && s.count == 0
    ensures MayHang(s) <==> !Notifying(s)
  {
    ReachableInv(s);
    if Notifying(s) {
      forall acts, s' | AllDriven(acts) && Exec(Next, s, acts) == Some(s') && Stuck(s') ensures s'.joiner != Parked {
        NotifiedJoinReturns(s, acts, s');
      }
    } else {
      var acts, s' := ForsakenRunsDown(s);
    }
  }

  // ---- There is always a schedule on which Join returns

  lemma EndingToReturned(s: State) returns (acts: seq<Action>, s': State)
    requires Ending(s) && |s.workers| > 0
    ensures AllDriven(acts) && Exec(Next, s, acts) == Some(s') && s'.joiner == Returned
    decreases EndingEffort(s)
  {
    if s.joiner == Returned {
      acts, s' := [], s;
    } else {
      EndingGoesOn(s);
      hide Ending, EndingEffort;
      var a: Action :| Driven(a) && Next(s, a).Some?;
      EndingDrops(s, a);
      WorkersStay(s, a);
      hide Next, Ending, Driven, EndingEffort;
      acts, s' := EndingToReturned(Next(s, a).value);
      First(Next, s, a, acts);
      acts := [a] + acts;
    }
  }

  /** From every state before its sleep Join may also return: let the pool come to rest first. */
  lemma JoinMayReturn(s: State) returns (acts: seq<Action>, s': State)
    requires Reachable(s) && |s.workers| > 0 && s.joiner == Loading
    ensures AllDriven(acts) && Exec(Next, s, acts) == Some(s') && s'.joiner == Returned
  {
    ReachableInv(s);
    hide Next, Driven;
    var rest, s1 := RunToRest(s);
    RestMeansDone(s1);
    var end, s2 := EndingToReturned(s1);
    Split(Next, s, rest, end);
    acts, s' := rest + end, s2;
  }
}
