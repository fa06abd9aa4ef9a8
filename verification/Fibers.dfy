/** mtf::fibers (tasks/coroutine/mtf/fibers/fiber.cpp, stacks.cpp): fibers over coroutines and a
    task queue, and the per-thread pools their stacks come from.

    Of the scheduler only its contract is used: a submitted task runs once, on some worker, and a
    continuation becomes runnable when its submitting task has ended.  Of coroutines only
    what module Coroutine shows: Resume comes back to Dispatch when the fiber suspends or finishes.
    A routine is the list of what it will do; module-wide quantification over routines is
    quantification over programs. */
module Fibers {
  import opened Runs
  import opened Counting

  datatype Op = Yield | Spawn(routine: seq<Op>) | Leaf

  datatype Fiber = Alive(rest: seq<Op>, stack: nat, completed: bool) | Destroyed

  /** What a thread does; f is the fiber whose Dispatch it is in. */
  datatype Doing =
    | Resting                          // between tasks, or outside the pool
    | Running(f: nat, prev: Option<nat>)   // in the fiber's own code
    | Spawning(f: nat, prev: Option<nat>, child: nat) // the same, between new Fiber and Schedule
    | Yielding(f: nat, prev: Option<nat>)  // SubmitContinuation done, Suspend to come
    | Resumed(f: nat, prev: Option<nat>)   // Resume has returned to Dispatch
    | Ending                           // Dispatch has returned, its task is ending
    | SpawningOutside(child: nat)      // a thread outside the pool, between new Fiber and Schedule

  datatype Thread = Thread(worker: bool, doing: Doing,
                           current: Option<nat>,  // thread_local current_fiber
                           deferred: seq<nat>,    // dispatches submitted as continuations of the running task
                           pool: seq<nat>)        // thread_local StackPool

  datatype State = State(
    fibers: seq<Fiber>,
    queue: seq<nat>,          // submitted dispatches
    threads: seq<Thread>,
    mapped: nat,              // stacks 0, 1, .. mapped - 1 have been allocated so far
    leaves: nat,
    outside: seq<seq<Op>>,    // routines spawned from outside the pool
    broken: bool)             // a destroyed fiber, or a null current_fiber, was used

  datatype Action =
    | SpawnOutside(t: nat, routine: seq<Op>) | SubmitOutside(t: nat)
    | Take(t: nat, k: nat)      // a worker starts the k-th queued dispatch
    | Operate(t: nat)           // the next operation of the running routine
    | SubmitChild(t: nat)
    | Suspend(t: nat)
    | EndDispatch(t: nat)
    | EndTask(t: nat)

  function SetThread(s: State, t: nat, th: Thread): State
    requires t < |s.threads|
  {
    s.(threads := s.threads[t := th])
  }

  predicate IsAlive(s: State, f: nat) {
    f < |s.fibers| && s.fibers[f].Alive?
  }

  /** The next operation of the routine that thread t runs, None at its end. */
  function NextOp(s: State, t: nat): Option<Op>
    requires t < |s.threads| && s.threads[t].doing.Running? && IsAlive(s, s.threads[t].doing.f)
  {
    var rest := s.fibers[s.threads[t].doing.f].rest;
    if rest == [] then None else Some(rest[0])
  }

  /** State s after the routine that thread t runs has taken its next operation. */
  function Advance(s: State, f: nat): State
    requires IsAlive(s, f) && s.fibers[f].rest != []
  {
    s.(fibers := s.fibers[f := s.fibers[f].(rest := s.fibers[f].rest[1..])])
  }

  /** new Fiber(routine) on thread t: a stack from the thread's pool, or a new one. */
  function NewFiber(s: State, t: nat, routine: seq<Op>): State
    requires t < |s.threads|
  {
    var th := s.threads[t];
    if th.pool != [] then
      var n := |th.pool| - 1;
      SetThread(s, t, th.(pool := th.pool[..n])).(fibers := s.fibers + [Alive(routine, th.pool[n], false)])
    else
      s.(fibers := s.fibers + [Alive(routine, s.mapped, false)], mapped := s.mapped + 1)
  }

  /** StackPool::Get of thread t: the stack last released there, or a new one. */
  function GetStack(s: State, t: nat): (State, nat)
    requires t < |s.threads|
  {
    var th := s.threads[t];
    if th.pool != [] then
      var n := |th.pool| - 1;
      (SetThread(s, t, th.(pool := th.pool[..n])), th.pool[n])
    else (s.(mapped := s.mapped + 1), s.mapped)
  }

  /** Get undoes exactly one thing: stack having been pushed on the pool of t. */
  lemma GetUndoesRelease(s: State, t: nat, stack: nat, s': State)
    requires t < |s.threads| == |s'.threads| && s'.mapped == s.mapped
    requires GetStack(s', t) == (s, stack)
    ensures s' == SetThread(s, t, s.threads[t].(pool := s.threads[t].pool + [stack]))
  {
    var th := s'.threads[t];
    assert th.pool != [];
    assert th.pool == th.pool[..|th.pool| - 1] + [stack];
    assert s'.threads == s.threads[t := th];
  }

  function DoTake(s: State, t: nat, k: nat): State
    requires t < |s.threads| && k < |s.queue|
  {
    var f, th := s.queue[k], s.threads[t];
    SetThread(s, t, th.(doing := Running(f, th.current), current := Some(f)))
      .(queue := s.queue[..k] + s.queue[k+1..], broken := s.broken || !IsAlive(s, f))
  }

  function DoOperate(s: State, t: nat): State
    requires t < |s.threads| && s.threads[t].doing.Running?
  {
    var th := s.threads[t];
    var Running(f, prev) := th.doing;
    if !IsAlive(s, f) || th.current.None? then s.(broken := true)
    else if s.fibers[f].rest == [] then
      SetThread(s, t, th.(doing := Resumed(f, prev))).(fibers := s.fibers[f := s.fibers[f].(completed := true)])
    else
      var s1 := Advance(s, f);
      match s.fibers[f].rest[0]
      case Leaf => s1.(leaves := s.leaves + 1)
      case Yield => SetThread(s1, t, th.(doing := Yielding(f, prev), deferred := th.deferred + [th.current.value]))
      case Spawn(routine) =>
        var s2 := NewFiber(s1, t, routine);
        SetThread(s2, t, s2.threads[t].(doing := Spawning(f, prev, |s.fibers|)))
  }

  /** The rest of Dispatch: current_fiber is put back, and a completed fiber gives its stack to the
      pool of this thread and is deleted. */
  function DoEndDispatch(s: State, t: nat): State
    requires t < |s.threads| && s.threads[t].doing.Resumed?
  {
    var th := s.threads[t];
    var Resumed(f, prev) := th.doing;
    var th1 := th.(current := prev, doing := Ending);
    if !IsAlive(s, f) then s.(broken := true)
    else if s.fibers[f].completed then
      SetThread(s, t, th1.(pool := th.pool + [s.fibers[f].stack])).(fibers := s.fibers[f := Destroyed])
    else SetThread(s, t, th1)
  }

  function Next(s: State, a: Action): Option<State> {
    if a.t >= |s.threads| then None
    else
      var t, th := a.t, s.threads[a.t];
      match a
      case SpawnOutside(_, routine) =>
        if th.worker || th.doing != Resting then None
        else
          var s1 := NewFiber(s, t, routine);
          Some(SetThread(s1, t, s1.threads[t].(doing := SpawningOutside(|s.fibers|)))
               .(outside := s.outside + [routine]))
      case SubmitOutside(_) =>
        if !th.doing.SpawningOutside? then None
        else Some(SetThread(s, t, th.(doing := Resting)).(queue := s.queue + [th.doing.child]))
      case Take(_, k) =>
        if th.worker && th.doing == Resting && k < |s.queue| then Some(DoTake(s, t, k)) else None
      case Operate(_) =>
        if th.doing.Running? then Some(DoOperate(s, t)) else None
      case SubmitChild(_) =>
        if !th.doing.Spawning? then None
        else
          Some(SetThread(s, t, th.(doing := Running(th.doing.f, th.doing.prev)))
               .(queue := s.queue + [th.doing.child]))
      case Suspend(_) =>
        if th.doing.Yielding? then Some(SetThread(s, t, th.(doing := Resumed(th.doing.f, th.doing.prev)))) else None
      case EndDispatch(_) =>
        if th.doing.Resumed? then Some(DoEndDispatch(s, t)) else None
      case EndTask(_) =>
        if th.doing != Ending then None
        else Some(SetThread(s, t, th.(doing := Resting, deferred := [])).(queue := s.queue + th.deferred))
  }

  function Init(workers: nat, outsiders: nat): State {
    State([], [], seq(workers + outsiders, t => Thread(t < workers, Resting, None, [], [])), 0, 0, [], false)
  }

  ghost predicate Reachable(s: State) {
    exists n: nat, m: nat, acts :: Exec(Next, Init(n, m), acts) == Some(s)
  }

  // ---- One token per fiber

  /** The fiber whose dispatch a thread is running, if any. */
  predicate RunsFiber(th: Thread, f: nat) {
    (th.doing.Running? || th.doing.Spawning? || th.doing.Yielding? || th.doing.Resumed?) && th.doing.f == f
  }

  /** The right to dispatch f, as thread th holds it: it is running f (perhaps with f's continuation
      already deferred), or it has ended f's task and still holds the continuation, or it has made
      f and is about to schedule it. */
  function Holds(f: nat): Thread -> nat {
    th =>
      (if RunsFiber(th, f) then 1 else 0)
      + (if th.doing == Ending then multiset(th.deferred)[f] else 0)
      + (if (th.doing.Spawning? || th.doing.SpawningOutside?) && th.doing.child == f then 1 else 0)
  }

  function Tokens(s: State, f: nat): nat {
    multiset(s.queue)[f] + Sum(s.threads, Holds(f))
  }

  ghost predicate OneToken(s: State, f: nat) {
    Tokens(s, f) == if IsAlive(s, f) then 1 else 0
  }

  /** Ready to be dispatched. */
  predicate Fresh(s: State, f: nat) {
    IsAlive(s, f) && !s.fibers[f].completed
  }

  /** What a thread's place in the life cycle says about its variables and its fibers. */
  ghost predicate ThreadOk(s: State, th: Thread) {
    match th.doing
    case Resting => th.current == None && th.deferred == []
    case SpawningOutside(child) => th.current == None && th.deferred == [] && Fresh(s, child)
    case Running(f, prev) => th.current == Some(f) && prev == None && th.deferred == [] && Fresh(s, f)
    case Spawning(f, prev, child) =>
      th.current == Some(f) && prev == None && th.deferred == [] && Fresh(s, f) && Fresh(s, child)
    case Yielding(f, prev) => th.current == Some(f) && prev == None && th.deferred == [f] && Fresh(s, f)
    case Resumed(f, prev) =>
      && th.current == Some(f) && prev == None && IsAlive(s, f)
      && th.deferred == (if s.fibers[f].completed then [] else [f])
    case Ending => th.current == None && (th.deferred == [] || (|th.deferred| == 1 && Fresh(s, th.deferred[0])))
  }

  ghost predicate LifeCycle(s: State) {
    && !s.broken
    && (forall t: nat :: t < |s.threads| ==> ThreadOk(s, s.threads[t]))
    && (forall k: nat :: k < |s.queue| ==> Fresh(s, s.queue[k]))
  }

  ghost predicate Single(s: State) {
    forall f :: OneToken(s, f)
  }

  /** Who holds a fiber's token is the only one to have anything to do with it. */
  lemma Alone(s: State, t: nat, f: nat)
    requires OneToken(s, f) && t < |s.threads| && Holds(f)(s.threads[t]) >= 1
    ensures IsAlive(s, f) && Holds(f)(s.threads[t]) == 1
    ensures f !in s.queue
    ensures forall u: nat :: u < |s.threads| && u != t ==> Holds(f)(s.threads[u]) == 0
  {
    SumAtLeast(s.threads, t, Holds(f));
    forall u: nat | u < |s.threads| && u != t ensures Holds(f)(s.threads[u]) == 0 {
      if u < t {
        SumAtLeastTwo(s.threads, u, t, Holds(f));
      } else {
        SumAtLeastTwo(s.threads, t, u, Holds(f));
      }
    }
    assert multiset(s.queue)[f] == 0;
    assert f !in multiset(s.queue);
  }

  /** A step that changes one thread, the queue and no fiber moves tokens as it moves holdings. */
  lemma TokensMove(s: State, s': State, t: nat, f: nat)
    requires t < |s.threads| == |s'.threads| && s'.threads == s.threads[t := s'.threads[t]]
    ensures Tokens(s', f) + Holds(f)(s.threads[t]) + multiset(s.queue)[f]
         == Tokens(s, f) + Holds(f)(s'.threads[t]) + multiset(s'.queue)[f]
  {
    SumUpdate(s.threads, t, s'.threads[t], Holds(f));
  }

  lemma QueueAppend(q: seq<nat>, r: seq<nat>, f: nat)
    ensures multiset(q + r)[f] == multiset(q)[f] + multiset(r)[f]
  {}

  lemma QueueRemove(q: seq<nat>, k: nat, f: nat)
    requires k < |q|
    ensures multiset(q[..k] + q[k+1..])[f] + (if q[k] == f then 1 else 0) == multiset(q)[f]
  {
    assert q == q[..k] + ([q[k]] + q[k+1..]);
    QueueAppend(q[..k], [q[k]] + q[k+1..], f);
    QueueAppend([q[k]], q[k+1..], f);
    QueueAppend(q[..k], q[k+1..], f);
  }

  // ---- Every step keeps the tokens

  lemma TakeToken(s: State, t: nat, k: nat, f: nat)
    requires LifeCycle(s) && OneToken(s, f) && Next(s, Take(t, k)).Some?
    ensures OneToken(Next(s, Take(t, k)).value, f)
  {
    var s' := Next(s, Take(t, k)).value;
    assert ThreadOk(s, s.threads[t]);
    QueueRemove(s.queue, k, f);
    TokensMove(s, s', t, f);
  }

  lemma SubmitChildToken(s: State, t: nat, f: nat)
    requires OneToken(s, f) && Next(s, SubmitChild(t)).Some?
    ensures OneToken(Next(s, SubmitChild(t)).value, f)
  {
    QueueAppend(s.queue, [s.threads[t].doing.child], f);
    TokensMove(s, Next(s, SubmitChild(t)).value, t, f);
  }

  lemma SubmitOutsideToken(s: State, t: nat, f: nat)
    requires OneToken(s, f) && Next(s, SubmitOutside(t)).Some?
    ensures OneToken(Next(s, SubmitOutside(t)).value, f)
  {
    QueueAppend(s.queue, [s.threads[t].doing.child], f);
    TokensMove(s, Next(s, SubmitOutside(t)).value, t, f);
  }

  lemma EndTaskToken(s: State, t: nat, f: nat)
    requires OneToken(s, f) && Next(s, EndTask(t)).Some?
    ensures OneToken(Next(s, EndTask(t)).value, f)
  {
    QueueAppend(s.queue, s.threads[t].deferred, f);
    TokensMove(s, Next(s, EndTask(t)).value, t, f);
  }

  lemma SuspendToken(s: State, t: nat, f: nat)
    requires OneToken(s, f) && Next(s, Suspend(t)).Some?
    ensures OneToken(Next(s, Suspend(t)).value, f)
  {
    TokensMove(s, Next(s, Suspend(t)).value, t, f);
  }

  lemma EndDispatchToken(s: State, t: nat, f: nat)
    requires LifeCycle(s) && OneToken(s, f) && Next(s, EndDispatch(t)).Some?
    ensures OneToken(Next(s, EndDispatch(t)).value, f)
  {
    assert ThreadOk(s, s.threads[t]);
    TokensMove(s, Next(s, EndDispatch(t)).value, t, f);
  }

  /** A new fiber comes with its one token, in the hands of the thread that makes it. */
  lemma NewFiberTokens(s: State, t: nat, routine: seq<Op>, f: nat)
    requires OneToken(s, f) && t < |s.threads|
    ensures var s' := NewFiber(s, t, routine);
      && |s'.threads| == |s.threads| && s'.queue == s.queue && |s'.fibers| == |s.fibers| + 1
      && Tokens(s', f) == Tokens(s, f) && (IsAlive(s', f) <==> IsAlive(s, f) || f == |s.fibers|)
  {
    var s' := NewFiber(s, t, routine);
    if s.threads[t].pool != [] {
      TokensMove(s, s', t, f);
    } else {
      assert s'.threads == s.threads;
    }
  }

  lemma SpawnOutsideToken(s: State, t: nat, routine: seq<Op>, f: nat)
    requires LifeCycle(s) && OneToken(s, f) && Next(s, SpawnOutside(t, routine)).Some?
    ensures OneToken(Next(s, SpawnOutside(t, routine)).value, f)
  {
    assert ThreadOk(s, s.threads[t]);
    NewFiberTokens(s, t, routine, f);
    TokensMove(NewFiber(s, t, routine), Next(s, SpawnOutside(t, routine)).value, t, f);
  }

  lemma ChildToken(s: State, t: nat, f: nat)
    requires LifeCycle(s) && OneToken(s, f) && Next(s, Operate(t)).Some?
    requires ThreadOk(s, s.threads[t]) && NextOp(s, t).Some? && NextOp(s, t).value.Spawn?
    ensures OneToken(Next(s, Operate(t)).value, f)
  {
    var s', g, routine := Next(s, Operate(t)).value, s.threads[t].doing.f, NextOp(s, t).value.routine;
    var s1 := Advance(s, g);
    var s2 := NewFiber(s1, t, routine);
    assert s' == SetThread(s2, t, s2.threads[t].(doing := Spawning(g, None, |s.fibers|)));
    assert s2.threads[t].doing == s.threads[t].doing;
    hide Next, DoOperate, NewFiber, LifeCycle;
    assert Tokens(s1, f) == Tokens(s, f);
    NewFiberTokens(s1, t, routine, f);
    TokensMove(s2, s', t, f);
  }

  lemma OtherToken(s: State, t: nat, f: nat)
    requires LifeCycle(s) && OneToken(s, f) && Next(s, Operate(t)).Some?
    requires ThreadOk(s, s.threads[t]) && !(NextOp(s, t).Some? && NextOp(s, t).value.Spawn?)
    ensures OneToken(Next(s, Operate(t)).value, f)
  {
    var s', th := Next(s, Operate(t)).value, s.threads[t];
    assert |s'.threads| == |s.threads| && s'.threads == s.threads[t := s'.threads[t]] && s'.queue == s.queue;
    assert s'.threads[t].doing.Running? || s'.threads[t].doing.Yielding? || s'.threads[t].doing.Resumed?;
    assert s'.threads[t].doing.f == th.doing.f;
    assert forall g: nat :: IsAlive(s', g) <==> IsAlive(s, g);
    hide Next, DoOperate, LifeCycle;
    TokensMove(s, s', t, f);
  }

  lemma OperateToken(s: State, t: nat, f: nat)
    requires LifeCycle(s) && OneToken(s, f) && Next(s, Operate(t)).Some?
    ensures OneToken(Next(s, Operate(t)).value, f)
  {
    assert ThreadOk(s, s.threads[t]);
    hide LifeCycle, OneToken, Next;
    if NextOp(s, t).Some? && NextOp(s, t).value.Spawn? {
      ChildToken(s, t, f);
    } else {
      OtherToken(s, t, f);
    }
  }

  lemma TokenStep(s: State, a: Action, f: nat)
    requires LifeCycle(s) && OneToken(s, f) && Next(s, a).Some?
    ensures OneToken(Next(s, a).value, f)
  {
    hide LifeCycle, OneToken;
    match a
    case SpawnOutside(t, r) => SpawnOutsideToken(s, t, r, f);
    case SubmitOutside(t) => SubmitOutsideToken(s, t, f);
    case Take(t, k) => TakeToken(s, t, k, f);
    case Operate(t) => OperateToken(s, t, f);
    case SubmitChild(t) => SubmitChildToken(s, t, f);
    case Suspend(t) => SuspendToken(s, t, f);
    case EndDispatch(t) => EndDispatchToken(s, t, f);
    case EndTask(t) => EndTaskToken(s, t, f);
  }

  // ---- Every step keeps the life cycle

  /** A step that leaves all fibers but g as fresh as they were leaves threads alone that have
      nothing to do with g. */
  ghost predicate OthersStay(s: State, s': State, g: nat) {
    forall f: nat :: f != g && IsAlive(s, f) ==> IsAlive(s', f) && (s'.fibers[f].completed <==> s.fibers[f].completed)
  }

  lemma ThreadStays(s: State, s': State, g: nat, th: Thread)
    requires OthersStay(s, s', g) && ThreadOk(s, th) && Holds(g)(th) == 0
    ensures ThreadOk(s', th)
  {
    if th.doing == Ending && th.deferred != [] {
      assert multiset(th.deferred)[th.deferred[0]] >= 1;
    }
  }

  /** Thread t deals with fiber g, whose token it holds; what remains to be shown is its own part. */
  lemma HolderStep(s: State, s': State, t: nat, g: nat)
    requires LifeCycle(s) && OneToken(s, g) && t < |s.threads| && Holds(g)(s.threads[t]) >= 1
    requires OthersStay(s, s', g) && |s'.threads| == |s.threads| && s'.threads == s.threads[t := s'.threads[t]]
    requires ThreadOk(s', s'.threads[t]) && s'.queue == s.queue && !s'.broken
    ensures LifeCycle(s')
  {
    Alone(s, t, g);
    forall u: nat | u < |s'.threads| ensures ThreadOk(s', s'.threads[u]) {
      if u != t { ThreadStays(s, s', g, s.threads[u]); }
    }
  }

  /** Thread t does something that changes no fiber's freshness. */
  lemma QuietStep(s: State, s': State, t: nat)
    requires LifeCycle(s) && t < |s.threads| == |s'.threads| && s'.threads == s.threads[t := s'.threads[t]]
    requires forall f: nat :: IsAlive(s, f) ==> IsAlive(s', f) && (s'.fibers[f].completed <==> s.fibers[f].completed)
    requires ThreadOk(s', s'.threads[t]) && !s'.broken
    requires forall k: nat :: k < |s'.queue| ==> Fresh(s', s'.queue[k])
    ensures LifeCycle(s')
  {
    forall u: nat | u < |s'.threads| ensures ThreadOk(s', s'.threads[u]) {
      if u != t { assert ThreadOk(s, s.threads[u]); }
    }
  }

  lemma TakeCycle(s: State, t: nat, k: nat)
    requires LifeCycle(s) && Next(s, Take(t, k)).Some?
    ensures LifeCycle(Next(s, Take(t, k)).value)
  {
    assert ThreadOk(s, s.threads[t]);
    QuietStep(s, Next(s, Take(t, k)).value, t);
  }

  lemma SubmitCycle(s: State, a: Action)
    requires LifeCycle(s) && Next(s, a).Some? && (a.SubmitChild? || a.SubmitOutside? || a.Suspend?)
    ensures LifeCycle(Next(s, a).value)
  {
    assert ThreadOk(s, s.threads[a.t]);
    QuietStep(s, Next(s, a).value, a.t);
  }

  lemma EndTaskCycle(s: State, t: nat)
    requires LifeCycle(s) && Next(s, EndTask(t)).Some?
    ensures LifeCycle(Next(s, EndTask(t)).value)
  {
    assert ThreadOk(s, s.threads[t]);
    QuietStep(s, Next(s, EndTask(t)).value, t);
  }

  lemma SpawnOutsideCycle(s: State, t: nat, routine: seq<Op>)
    requires LifeCycle(s) && Next(s, SpawnOutside(t, routine)).Some?
    ensures LifeCycle(Next(s, SpawnOutside(t, routine)).value)
  {
    assert ThreadOk(s, s.threads[t]);
    QuietStep(s, Next(s, SpawnOutside(t, routine)).value, t);
  }

  lemma EndDispatchCycle(s: State, t: nat)
    requires LifeCycle(s) && Single(s) && Next(s, EndDispatch(t)).Some?
    ensures LifeCycle(Next(s, EndDispatch(t)).value)
  {
    assert ThreadOk(s, s.threads[t]);
    var g := s.threads[t].doing.f;
    assert OneToken(s, g);
    HolderStep(s, Next(s, EndDispatch(t)).value, t, g);
  }

  lemma ChildCycle(s: State, t: nat)
    requires LifeCycle(s) && Single(s) && Next(s, Operate(t)).Some?
    requires ThreadOk(s, s.threads[t]) && NextOp(s, t).Some? && NextOp(s, t).value.Spawn?
    ensures LifeCycle(Next(s, Operate(t)).value)
  {
    var g := s.threads[t].doing.f;
    assert OneToken(s, g);
    HolderStep(s, Next(s, Operate(t)).value, t, g);
  }

  lemma OtherCycle(s: State, t: nat)
    requires LifeCycle(s) && Single(s) && Next(s, Operate(t)).Some?
    requires ThreadOk(s, s.threads[t]) && !(NextOp(s, t).Some? && NextOp(s, t).value.Spawn?)
    ensures LifeCycle(Next(s, Operate(t)).value)
  {
    var g := s.threads[t].doing.f;
    assert OneToken(s, g);
    HolderStep(s, Next(s, Operate(t)).value, t, g);
  }

  lemma OperateCycle(s: State, t: nat)
    requires LifeCycle(s) && Single(s) && Next(s, Operate(t)).Some?
    ensures LifeCycle(Next(s, Operate(t)).value)
  {
    assert ThreadOk(s, s.threads[t]);
    if NextOp(s, t).Some? && NextOp(s, t).value.Spawn? {
      ChildCycle(s, t);
    } else {
      OtherCycle(s, t);
    }
  }

  ghost predicate Inv(s: State) {
    LifeCycle(s) && Single(s)
  }

  lemma InvStep(s: State, a: Action)
    requires Inv(s) && Next(s, a).Some?
    ensures Inv(Next(s, a).value)
  {
    var s' := Next(s, a).value;
    forall f ensures OneToken(s', f) {
      assert OneToken(s, f);
      TokenStep(s, a, f);
    }
    hide LifeCycle, OneToken, Next;
    match a
    case SpawnOutside(t, r) => SpawnOutsideCycle(s, t, r);
    case Take(t, k) => TakeCycle(s, t, k);
    case Operate(t) => OperateCycle(s, t);
    case EndDispatch(t) => EndDispatchCycle(s, t);
    case EndTask(t) => EndTaskCycle(s, t);
    case _ => SubmitCycle(s, a);
  }

  lemma InitInv(n: nat, m: nat)
    ensures Inv(Init(n, m))
  {
    var s := Init(n, m);
    forall f ensures OneToken(s, f) {
      SumZero(s.threads, Holds(f));
    }
  }

  lemma ReachableInv(s: State)
    requires Reachable(s)
    ensures Inv(s)
  {
    var n: nat, m: nat, acts :| Exec(Next, Init(n, m), acts) == Some(s);
    InitInv(n, m);
    forall x, a | Inv(x) && Next(x, a).Some? ensures Inv(Next(x, a).value) {
      InvStep(x, a);
    }
    hide Inv, Next;
    Invariant(Next, Inv, Init(n, m), acts);
  }

  /** A live fiber has exactly one token: a queued dispatch, or one thread that runs it (with or
      without its own continuation deferred), or one continuation of a task just over, or one
      thread about to schedule it.  A destroyed fiber has none: no queued or deferred dispatch
      refers to it, nobody runs it, and so nobody destroys it again; nothing destroyed is used.
      A continuation is deferred only by the thread that runs its fiber or has just run it, alone. */
  lemma EveryFiberHasOneToken(s: State, f: nat)
    requires Reachable(s) && f < |s.fibers|
    ensures Tokens(s, f) == if s.fibers[f].Alive? then 1 else 0
    ensures !s.broken
    ensures forall g, t | 0 <= t < |s.threads| && g in s.threads[t].deferred ::
      && IsAlive(s, g) && s.threads[t].deferred == [g]
      && (s.threads[t].doing == Ending || RunsFiber(s.threads[t], g))
  {
    ReachableInv(s);
    assert OneToken(s, f);
    forall g, t | 0 <= t < |s.threads| && g in s.threads[t].deferred
      ensures IsAlive(s, g) && s.threads[t].deferred == [g]
      ensures s.threads[t].doing == Ending || RunsFiber(s.threads[t], g)
    {
      assert ThreadOk(s, s.threads[t]);
    }
  }

  /** No fiber is run by two threads at once, and none that runs is also queued. */
  lemma NobodySharesAFiber(s: State, f: nat, t: nat, u: nat)
    requires Reachable(s) && t < |s.threads| && u < |s.threads| && t != u && RunsFiber(s.threads[t], f)
    ensures !RunsFiber(s.threads[u], f) && f !in s.queue
    ensures s.threads[u].doing == Ending ==> f !in s.threads[u].deferred
  {
    ReachableInv(s);
    assert OneToken(s, f);
    Alone(s, t, f);
    assert Holds(f)(s.threads[u]) == 0;
    assert s.threads[u].doing == Ending ==> multiset(s.threads[u].deferred)[f] == 0;
    assert f in s.threads[u].deferred ==> f in multiset(s.threads[u].deferred);
  }

  /** The fiber whose code runs is the one `current_fiber` names, and outside tasks it is null. */
  lemma CurrentFiberIsRight(s: State, t: nat)
    requires Reachable(s) && t < |s.threads|
    ensures s.threads[t].doing.Running? ==> s.threads[t].current == Some(s.threads[t].doing.f)
    ensures s.threads[t].doing == Resting ==> s.threads[t].current == None
  {
    ReachableInv(s);
    assert ThreadOk(s, s.threads[t]);
  }

  ghost predicate Quiet(s: State) {
    s.queue == [] && forall t :: 0 <= t < |s.threads| ==> s.threads[t].doing == Resting
  }

  /** When nothing is queued or running, every fiber has been destroyed. */
  lemma QuietMeansAllDestroyed(s: State)
    requires Reachable(s) && Quiet(s)
    ensures forall f :: 0 <= f < |s.fibers| ==> s.fibers[f].Destroyed?
  {
    ReachableInv(s);
    forall f: nat | f < |s.fibers| ensures s.fibers[f].Destroyed? {
      assert OneToken(s, f);
      SumZero(s.threads, Holds(f));
    }
  }

  /** With at least one worker, a pool that is not quiet can go on. */
  lemma NotQuietMeansProgress(s: State)
    requires Reachable(s) && !Quiet(s) && exists t :: 0 <= t < |s.threads| && s.threads[t].worker
    ensures exists a: Action :: !a.SpawnOutside? && Next(s, a).Some?
  {
    if t: nat :| t < |s.threads| && s.threads[t].doing != Resting {
      var d := s.threads[t].doing;
      var a := match d
        case Running(_, _) => Operate(t)
        case Spawning(_, _, _) => SubmitChild(t)
        case Yielding(_, _) => Suspend(t)
        case Resumed(_, _) => EndDispatch(t)
        case Ending => EndTask(t)
        case _ => SubmitOutside(t);
      assert Next(s, a).Some?;
    } else {
      var t: nat :| t < |s.threads| && s.threads[t].worker;
      assert Next(s, Take(t, 0)).Some?;
    }
  }

  // ---- Stacks

  /** How often stack x is held by a fiber, and how often it lies in a pool. */
  function HasStack(x: nat): Fiber -> nat {
    (f: Fiber) => if f.Alive? && f.stack == x then 1 else 0
  }

  function Pooled(x: nat): Thread -> nat {
    (th: Thread) => multiset(th.pool)[x]
  }

  ghost predicate OneOwner(s: State, x: nat) {
    Sum(s.fibers, HasStack(x)) + Sum(s.threads, Pooled(x)) == if x < s.mapped then 1 else 0
  }

  /** Steps that touch no stack. */
  lemma StackFrame(s: State, s': State, t: nat, x: nat)
    requires OneOwner(s, x) && t < |s.threads| == |s'.threads| && s'.threads == s.threads[t := s'.threads[t]]
    requires s'.threads[t].pool == s.threads[t].pool && s'.mapped == s.mapped && s'.fibers == s.fibers
    ensures OneOwner(s', x)
  {
    SumUpdate(s.threads, t, s'.threads[t], Pooled(x));
  }

  lemma NewFiberStack(s: State, t: nat, routine: seq<Op>, x: nat)
    requires OneOwner(s, x) && t < |s.threads|
    ensures OneOwner(NewFiber(s, t, routine), x)
  {
    var s', pool := NewFiber(s, t, routine), s.threads[t].pool;
    if pool != [] {
      var n := |pool| - 1;
      var th := s.threads[t].(pool := pool[..n]);
      assert s'.threads == s.threads[t := th] && s'.fibers == s.fibers + [Alive(routine, pool[n], false)];
      assert s'.mapped == s.mapped;
      hide NewFiber;
      SumAppend(s.fibers, Alive(routine, pool[n], false), HasStack(x));
      SumUpdate(s.threads, t, th, Pooled(x));
      QueueRemove(pool, n, x);
      assert pool[..n] + pool[n+1..] == pool[..n];
    } else {
      SumAppend(s.fibers, Alive(routine, s.mapped, false), HasStack(x));
    }
  }

  lemma AdvanceStack(s: State, f: nat, x: nat)
    requires OneOwner(s, x) && IsAlive(s, f) && s.fibers[f].rest != []
    ensures OneOwner(Advance(s, f), x)
  {
    SumUpdate(s.fibers, f, Advance(s, f).fibers[f], HasStack(x));
  }

  lemma OperateStack(s: State, t: nat, x: nat)
    requires LifeCycle(s) && OneOwner(s, x) && Next(s, Operate(t)).Some?
    ensures OneOwner(Next(s, Operate(t)).value, x)
  {
    assert ThreadOk(s, s.threads[t]);
    var s', f := Next(s, Operate(t)).value, s.threads[t].doing.f;
    if s.fibers[f].rest == [] {
      SumUpdate(s.fibers, f, s'.fibers[f], HasStack(x));
      SumUpdate(s.threads, t, s'.threads[t], Pooled(x));
    } else {
      AdvanceStack(s, f, x);
      var s1 := Advance(s, f);
      match s.fibers[f].rest[0] {
        case Leaf =>
        case Yield => StackFrame(s1, s', t, x);
        case Spawn(routine) =>
          NewFiberStack(s1, t, routine, x);
          StackFrame(NewFiber(s1, t, routine), s', t, x);
      }
    }
  }

  lemma EndDispatchStack(s: State, t: nat, x: nat)
    requires LifeCycle(s) && OneOwner(s, x) && Next(s, EndDispatch(t)).Some?
    ensures OneOwner(Next(s, EndDispatch(t)).value, x)
  {
    assert ThreadOk(s, s.threads[t]);
    var s', f := Next(s, EndDispatch(t)).value, s.threads[t].doing.f;
    SumUpdate(s.threads, t, s'.threads[t], Pooled(x));
    if s.fibers[f].completed {
      SumUpdate(s.fibers, f, Destroyed, HasStack(x));
      QueueAppend(s.threads[t].pool, [s.fibers[f].stack], x);
    }
  }

  lemma StackStep(s: State, a: Action, x: nat)
    requires LifeCycle(s) && OneOwner(s, x) && Next(s, a).Some?
    ensures OneOwner(Next(s, a).value, x)
  {
    match a
    case Operate(t) => OperateStack(s, t, x);
    case EndDispatch(t) => EndDispatchStack(s, t, x);
    case SpawnOutside(t, routine) =>
      NewFiberStack(s, t, routine, x);
      StackFrame(NewFiber(s, t, routine), Next(s, a).value, t, x);
    case _ => StackFrame(s, Next(s, a).value, a.t, x);
  }

  ghost predicate Stacks(s: State) {
    forall x :: OneOwner(s, x)
  }

  lemma ReachableStacks(s: State)
    requires Reachable(s)
    ensures Inv(s) && Stacks(s)
  {
    var n: nat, m: nat, acts :| Exec(Next, Init(n, m), acts) == Some(s);
    InitInv(n, m);
    var i := Init(n, m);
    forall x ensures OneOwner(i, x) {
      SumZero(i.threads, Pooled(x));
    }
    var both := (z: State) => Inv(z) && Stacks(z);
    forall z, a | both(z) && Next(z, a).Some? ensures both(Next(z, a).value) {
      InvStep(z, a);
      forall x ensures OneOwner(Next(z, a).value, x) {
        assert OneOwner(z, x);
        StackStep(z, a, x);
      }
    }
    hide Inv, Stacks, Next;
    Invariant(Next, both, i, acts);
  }

  /** Every stack ever allocated has exactly one owner, a live fiber or a place in a pool; so no
      two live fibers share a stack, and no live fiber's stack can be handed out again. */
  lemma StacksAreNotShared(s: State, f: nat, g: nat, t: nat)
    requires Reachable(s) && IsAlive(s, f) && IsAlive(s, g) && f < g && t < |s.threads|
    ensures s.fibers[f].stack != s.fibers[g].stack
    ensures s.fibers[f].stack !in s.threads[t].pool
    ensures s.fibers[f].stack < s.mapped
  {
    ReachableStacks(s);
    var x := s.fibers[f].stack;
    assert OneOwner(s, x);
    SumAtLeast(s.fibers, f, HasStack(x));
    SumAtLeast(s.threads, t, Pooled(x));
    assert multiset(s.threads[t].pool)[x] == 0;
    assert x !in multiset(s.threads[t].pool);
    if s.fibers[g].stack == x {
      SumAtLeastTwo(s.fibers, f, g, HasStack(x));
    }
  }

  function Live(f: Fiber): nat {
    if f.Alive? then 1 else 0
  }

  function PoolSize(th: Thread): nat {
    |th.pool|
  }

  ghost predicate Balance(s: State) {
    Sum(s.fibers, Live) + Sum(s.threads, PoolSize) == s.mapped
  }

  lemma NewFiberBalance(s: State, t: nat, routine: seq<Op>)
    requires Balance(s) && t < |s.threads|
    ensures Balance(NewFiber(s, t, routine))
  {
    var s' := NewFiber(s, t, routine);
    SumAppend(s.fibers, s'.fibers[|s.fibers|], Live);
    if s.threads[t].pool != [] {
      SumUpdate(s.threads, t, s'.threads[t], PoolSize);
    }
  }

  lemma OperateBalance(s: State, t: nat)
    requires LifeCycle(s) && Balance(s) && Next(s, Operate(t)).Some?
    ensures Balance(Next(s, Operate(t)).value)
  {
    assert ThreadOk(s, s.threads[t]);
    var s', f := Next(s, Operate(t)).value, s.threads[t].doing.f;
    SumUpdate(s.fibers, f, s'.fibers[f], Live);
    if s.fibers[f].rest != [] && s.fibers[f].rest[0].Spawn? {
      var s1, routine := Advance(s, f), s.fibers[f].rest[0].routine;
      NewFiberBalance(s1, t, routine);
      SumUpdate(NewFiber(s1, t, routine).threads, t, s'.threads[t], PoolSize);
    } else {
      SumUpdate(s.threads, t, s'.threads[t], PoolSize);
    }
  }

  lemma BalanceStep(s: State, a: Action)
    requires LifeCycle(s) && Balance(s) && Next(s, a).Some?
    ensures Balance(Next(s, a).value)
  {
    var s' := Next(s, a).value;
    match a
    case Operate(t) => OperateBalance(s, t);
    case EndDispatch(t) =>
      assert ThreadOk(s, s.threads[t]);
      SumUpdate(s.threads, t, s'.threads[t], PoolSize);
      SumUpdate(s.fibers, s.threads[t].doing.f, Destroyed, Live);
    case SpawnOutside(t, routine) =>
      NewFiberBalance(s, t, routine);
      SumUpdate(NewFiber(s, t, routine).threads, t, s'.threads[t], PoolSize);
    case _ => SumUpdate(s.threads, a.t, s'.threads[a.t], PoolSize);
  }

  // ---- What a program does, whatever the schedule

  /** Leaves counted by a routine and everything it spawns. */
  function LeavesOf(routine: seq<Op>): nat {
    if routine == [] then 0
    else (match routine[0] case Leaf => 1 case Yield => 0 case Spawn(r) => LeavesOf(r)) + LeavesOf(routine[1..])
  }

  /** Steps a routine and everything it spawns takes, beyond those of being started and ended. */
  function StepsOf(routine: seq<Op>): nat {
    if routine == [] then 0
    else (match routine[0] case Leaf => 1 case Yield => 5 case Spawn(r) => 6 + StepsOf(r)) + StepsOf(routine[1..])
  }

  function LeavesLeft(f: Fiber): nat {
    if f.Alive? then LeavesOf(f.rest) else 0
  }

  function StepsLeft(f: Fiber): nat {
    if f.Alive? then StepsOf(f.rest) else 0
  }

  /** Steps still due for what a thread has begun, up to the end of the tasks it has in hand. */
  function Effort(th: Thread): nat {
    match th.doing
    case Resting => 0
    case SpawningOutside(_) => 5
    case Running(_, _) => 3
    case Spawning(_, _, _) => 8
    case Yielding(_, _) => 3 + 4 * |th.deferred|
    case Resumed(_, _) => 2 + 4 * |th.deferred|
    case Ending => 1 + 4 * |th.deferred|
  }

  /** Leaves counted and still to be counted: all that the outside asked for. */
  ghost predicate LeafLedger(s: State) {
    && s.leaves + Sum(s.fibers, LeavesLeft) == Sum(s.outside, LeavesOf)
    && forall f :: 0 <= f < |s.fibers| && s.fibers[f].Alive? && s.fibers[f].completed ==> s.fibers[f].rest == []
  }

  function Measure(s: State): nat {
    Sum(s.fibers, StepsLeft) + Sum(s.threads, Effort) + 4 * |s.queue|
  }

  lemma NewFiberLedger(s: State, t: nat, routine: seq<Op>)
    requires t < |s.threads|
    ensures var s' := NewFiber(s, t, routine);
      && Sum(s'.fibers, LeavesLeft) == Sum(s.fibers, LeavesLeft) + LeavesOf(routine)
      && Sum(s'.fibers, StepsLeft) == Sum(s.fibers, StepsLeft) + StepsOf(routine)
      && Sum(s'.threads, Effort) == Sum(s.threads, Effort)
      && |s'.threads| == |s.threads| && s'.threads[t].doing == s.threads[t].doing
  {
    var s' := NewFiber(s, t, routine);
    SumAppend(s.fibers, s'.fibers[|s.fibers|], LeavesLeft);
    SumAppend(s.fibers, s'.fibers[|s.fibers|], StepsLeft);
    SumUpdate(s.threads, t, s'.threads[t], Effort);
    assert s'.threads == s.threads[t := s'.threads[t]];
  }

  lemma AdvanceLedger(s: State, f: nat)
    requires IsAlive(s, f) && s.fibers[f].rest != []
    ensures var s', op := Advance(s, f), s.fibers[f].rest[0];
      && Sum(s'.fibers, LeavesLeft) + LeavesOf([op]) == Sum(s.fibers, LeavesLeft)
      && Sum(s'.fibers, StepsLeft) + StepsOf([op]) == Sum(s.fibers, StepsLeft)
  {
    var s' := Advance(s, f);
    SumUpdate(s.fibers, f, s'.fibers[f], LeavesLeft);
    SumUpdate(s.fibers, f, s'.fibers[f], StepsLeft);
    assert [s.fibers[f].rest[0]][1..] == [];
  }

  lemma OneOp(op: Op)
    ensures LeavesOf([op]) == match op case Leaf => 1 case Yield => 0 case Spawn(r) => LeavesOf(r)
    ensures StepsOf([op]) == match op case Leaf => 1 case Yield => 5 case Spawn(r) => 6 + StepsOf(r)
  {
    assert [op][1..] == [];
  }

  lemma OperateLedger(s: State, t: nat)
    requires LifeCycle(s) && LeafLedger(s) && Next(s, Operate(t)).Some?
    ensures LeafLedger(Next(s, Operate(t)).value)
    ensures Measure(Next(s, Operate(t)).value) + 1 == Measure(s)
  {
    assert ThreadOk(s, s.threads[t]);
    var s', f := Next(s, Operate(t)).value, s.threads[t].doing.f;
    if s.fibers[f].rest == [] {
      SumUpdate(s.fibers, f, s'.fibers[f], LeavesLeft);
      SumUpdate(s.fibers, f, s'.fibers[f], StepsLeft);
      SumUpdate(s.threads, t, s'.threads[t], Effort);
    } else {
      assert NextOp(s, t).Some?;
      StepLedger(s, t);
    }
  }

  lemma StepLedger(s: State, t: nat)
    requires LifeCycle(s) && LeafLedger(s) && Next(s, Operate(t)).Some?
    requires ThreadOk(s, s.threads[t]) && NextOp(s, t).Some?
    ensures LeafLedger(Next(s, Operate(t)).value)
    ensures Measure(Next(s, Operate(t)).value) + 1 == Measure(s)
  {
    AdvanceLedger(s, s.threads[t].doing.f);
    OneOp(NextOp(s, t).value);
    if NextOp(s, t).value.Spawn? {
      ChildLedger(s, t);
    } else {
      OtherLedger(s, t);
    }
  }

  lemma OtherLedger(s: State, t: nat)
    requires LifeCycle(s) && LeafLedger(s) && Next(s, Operate(t)).Some?
    requires ThreadOk(s, s.threads[t]) && NextOp(s, t).Some? && !NextOp(s, t).value.Spawn?
    ensures LeafLedger(Next(s, Operate(t)).value)
    ensures Measure(Next(s, Operate(t)).value) + 1 == Measure(s)
  {
    var s', f := Next(s, Operate(t)).value, s.threads[t].doing.f;
    AdvanceLedger(s, f);
    OneOp(NextOp(s, t).value);
    SumUpdate(s.threads, t, s'.threads[t], Effort);
    assert s'.threads == s.threads[t := s'.threads[t]] && s'.fibers == Advance(s, f).fibers && s'.queue == s.queue;
    assert s'.leaves == s.leaves + LeavesOf([NextOp(s, t).value]) && s'.outside == s.outside;
    assert Effort(s'.threads[t]) + 1 == Effort(s.threads[t]) + StepsOf([NextOp(s, t).value]);
    hide Next, LeavesOf, StepsOf, Sum, Effort, LifeCycle;
  }

  lemma ChildLedger(s: State, t: nat)
    requires LifeCycle(s) && LeafLedger(s) && Next(s, Operate(t)).Some?
    requires ThreadOk(s, s.threads[t]) && NextOp(s, t).Some? && NextOp(s, t).value.Spawn?
    ensures LeafLedger(Next(s, Operate(t)).value)
    ensures Measure(Next(s, Operate(t)).value) + 1 == Measure(s)
  {
    var s', f, routine := Next(s, Operate(t)).value, s.threads[t].doing.f, NextOp(s, t).value.routine;
    var s1 := Advance(s, f);
    var s2 := NewFiber(s1, t, routine);
    AdvanceLedger(s, f);
    OneOp(NextOp(s, t).value);
    NewFiberLedger(s1, t, routine);
    SumUpdate(s2.threads, t, s'.threads[t], Effort);
    assert s' == SetThread(s2, t, s'.threads[t]) && s'.queue == s.queue && s'.leaves == s.leaves;
    assert Effort(s'.threads[t]) == 8 && Effort(s2.threads[t]) == 3;
    hide Next, LeavesOf, StepsOf, Sum, Effort, LifeCycle;
  }

  lemma EndDispatchLedger(s: State, t: nat)
    requires LifeCycle(s) && LeafLedger(s) && Next(s, EndDispatch(t)).Some?
    ensures LeafLedger(Next(s, EndDispatch(t)).value)
    ensures Measure(Next(s, EndDispatch(t)).value) + 1 == Measure(s)
  {
    assert ThreadOk(s, s.threads[t]);
    var s', f := Next(s, EndDispatch(t)).value, s.threads[t].doing.f;
    SumUpdate(s.threads, t, s'.threads[t], Effort);
    SumUpdate(s.fibers, f, Destroyed, LeavesLeft);
    SumUpdate(s.fibers, f, Destroyed, StepsLeft);
  }

  lemma SpawnOutsideLedger(s: State, t: nat, routine: seq<Op>)
    requires LifeCycle(s) && LeafLedger(s) && Next(s, SpawnOutside(t, routine)).Some?
    ensures LeafLedger(Next(s, SpawnOutside(t, routine)).value)
    ensures Measure(Next(s, SpawnOutside(t, routine)).value) == Measure(s) + 5 + StepsOf(routine)
  {
    assert ThreadOk(s, s.threads[t]);
    var s1, s' := NewFiber(s, t, routine), Next(s, SpawnOutside(t, routine)).value;
    NewFiberLedger(s, t, routine);
    SumUpdate(s1.threads, t, s'.threads[t], Effort);
    SumAppend(s.outside, routine, LeavesOf);
    hide LeavesOf, StepsOf, Sum;
  }

  lemma LedgerStep(s: State, a: Action)
    requires LifeCycle(s) && LeafLedger(s) && Next(s, a).Some?
    ensures LeafLedger(Next(s, a).value)
    ensures !a.SpawnOutside? ==> Measure(Next(s, a).value) + 1 == Measure(s)
  {
    match a
    case Operate(t) => OperateLedger(s, t);
    case EndDispatch(t) => EndDispatchLedger(s, t);
    case SpawnOutside(t, routine) => SpawnOutsideLedger(s, t, routine);
    case _ =>
      SumUpdate(s.threads, a.t, Next(s, a).value.threads[a.t], Effort);
      assert ThreadOk(s, s.threads[a.t]);
  }

  ghost predicate Full(s: State) {
    Inv(s) && Balance(s) && LeafLedger(s)
  }

  lemma FullStep(s: State, a: Action)
    requires Full(s) && Next(s, a).Some?
    ensures Full(Next(s, a).value)
  {
    InvStep(s, a);
    BalanceStep(s, a);
    LedgerStep(s, a);
  }

  lemma ReachableFull(s: State)
    requires Reachable(s)
    ensures Full(s)
  {
    var n: nat, m: nat, acts :| Exec(Next, Init(n, m), acts) == Some(s);
    InitInv(n, m);
    SumZero(Init(n, m).threads, PoolSize);
    forall x, a | Full(x) && Next(x, a).Some? ensures Full(Next(x, a).value) {
      FullStep(x, a);
    }
    hide Full, Next;
    Invariant(Next, Full, Init(n, m), acts);
  }

  /** Stacks ever allocated = live fibers + stacks in all pools. */
  lemma StacksAreConserved(s: State)
    requires Reachable(s)
    ensures s.mapped == Sum(s.fibers, Live) + Sum(s.threads, PoolSize)
  {
    ReachableFull(s);
  }

  /** Once nothing is queued or running, exactly the leaves asked for have been counted, whatever the
      schedule was, and every stack is back in some pool. */
  lemma QuietMeansAllDone(s: State)
    requires Reachable(s) && Quiet(s)
    ensures s.leaves == Sum(s.outside, LeavesOf)
    ensures s.mapped == Sum(s.threads, PoolSize)
    ensures Measure(s) == 0
  {
    ReachableFull(s);
    QuietMeansAllDestroyed(s);
    SumZero(s.fibers, LeavesLeft);
    SumZero(s.fibers, StepsLeft);
    SumZero(s.fibers, Live);
    SumZero(s.threads, Effort);
  }

  /** Unless somebody spawns from outside, every step of every schedule uses up exactly one unit of
      the measure: all runs to quiescence have the same length. */
  lemma {:induction false} EveryScheduleTakesAsLong(s: State, acts: seq<Action>, s': State)
    requires Full(s) && Exec(Next, s, acts) == Some(s')
    requires forall k :: 0 <= k < |acts| ==> !acts[k].SpawnOutside?
    ensures |acts| + Measure(s') == Measure(s)
    decreases |acts|
  {
    if acts != [] {
      FullStep(s, acts[0]);
      LedgerStep(s, acts[0]);
      hide Full, Next, Measure;
      EveryScheduleTakesAsLong(Next(s, acts[0]).value, acts[1..], s');
    }
  }

  // ---- Stacks are recycled

  /** A stack is mapped only for a new fiber of a thread whose pool is empty. */
  lemma MapsOnlyWhenPoolIsEmpty(s: State, a: Action)
    requires Next(s, a).Some?
    ensures var s' := Next(s, a).value;
      && s.mapped <= s'.mapped <= s.mapped + 1
      && (s'.mapped != s.mapped ==> a.t < |s.threads| && s.threads[a.t].pool == [] && |s'.fibers| == |s.fibers| + 1)
      && (|s'.fibers| > |s.fibers| && a.t < |s.threads| && s.threads[a.t].pool == [] ==> s'.mapped == s.mapped + 1)
  {}

  /** This step makes a fiber on thread t. */
  predicate Makes(s: State, a: Action, t: nat) {
    a.t == t && Next(s, a).Some? && |Next(s, a).value.fibers| > |s.fibers|
  }

  /** This step puts the stack of a finished fiber into the pool of thread t. */
  predicate Recycles(s: State, a: Action, t: nat) {
    a == EndDispatch(t) && Next(s, a).Some? && t < |s.threads| && s.threads[t].doing.Resumed?
    && IsAlive(s, s.threads[t].doing.f) && !IsAlive(Next(s, a).value, s.threads[t].doing.f)
  }

  /** No step of the run makes a fiber on t or gives t a stack. */
  ghost predicate PoolUntouched(s: State, acts: seq<Action>, t: nat)
    decreases |acts|
  {
    acts != [] && Next(s, acts[0]).Some? ==>
      && !Makes(s, acts[0], t) && !Recycles(s, acts[0], t)
      && PoolUntouched(Next(s, acts[0]).value, acts[1..], t)
  }

  lemma PoolStays(s: State, a: Action, t: nat)
    requires Inv(s) && Next(s, a).Some? && t < |s.threads| && !Makes(s, a, t) && !Recycles(s, a, t)
    ensures var s' := Next(s, a).value; |s'.threads| == |s.threads| && s'.threads[t].pool == s.threads[t].pool
  {
    if a.t == t {
      assert ThreadOk(s, s.threads[t]);
    }
  }

  lemma {:induction false} PoolStaysOverRuns(s: State, acts: seq<Action>, s': State, t: nat)
    requires Inv(s) && Exec(Next, s, acts) == Some(s') && t < |s.threads| && PoolUntouched(s, acts, t)
    ensures Inv(s') && t < |s'.threads| && s'.threads[t].pool == s.threads[t].pool
    decreases |acts|
  {
    if acts != [] {
      PoolStays(s, acts[0], t);
      InvStep(s, acts[0]);
      hide Next, Inv, Makes, Recycles;
      PoolStaysOverRuns(Next(s, acts[0]).value, acts[1..], s', t);
    }
  }

  /** What recycling puts on top of the pool, and what a new fiber takes from there. */
  lemma RecycledOnTop(s: State, t: nat)
    requires Inv(s) && Recycles(s, EndDispatch(t), t)
    ensures var s' := Next(s, EndDispatch(t)).value;
      t < |s'.threads| && s'.threads[t].pool == s.threads[t].pool + [s.fibers[s.threads[t].doing.f].stack]
  {}

  lemma MadeFromTop(s: State, a: Action, t: nat)
    requires Inv(s) && Makes(s, a, t) && t < |s.threads| && s.threads[t].pool != []
    ensures var s', pool := Next(s, a).value, s.threads[t].pool;
      && IsAlive(s', |s.fibers|) && s'.fibers[|s.fibers|].stack == pool[|pool| - 1]
      && s'.mapped == s.mapped && t < |s'.threads| && s'.threads[t].pool == pool[..|pool| - 1]
  {
    assert ThreadOk(s, s.threads[t]);
  }

  /** The stack of the last fiber destroyed on a thread is the stack of the next fiber made there,
      whatever happens in between, and making it maps nothing. */
  lemma LastStackIsReused(s: State, t: nat, acts: seq<Action>, s1: State, a: Action)
    requires Reachable(s) && Recycles(s, EndDispatch(t), t)
    requires Exec(Next, Next(s, EndDispatch(t)).value, acts) == Some(s1)
    requires PoolUntouched(Next(s, EndDispatch(t)).value, acts, t) && Makes(s1, a, t)
    ensures var s2 := Next(s1, a).value;
      && s2.mapped == s1.mapped && IsAlive(s2, |s1.fibers|)
      && s2.fibers[|s1.fibers|].stack == s.fibers[s.threads[t].doing.f].stack
      && t < |s2.threads| && s2.threads[t].pool == s.threads[t].pool
  {
    ReachableInv(s);
    RecycledOnTop(s, t);
    InvStep(s, EndDispatch(t));
    assert t < |s.threads| && IsAlive(s, s.threads[t].doing.f);
    hide Next, Inv, Recycles, Makes;
    PoolStaysOverRuns(Next(s, EndDispatch(t)).value, acts, s1, t);
    MadeFromTop(s1, a, t);
  }

  // ---- Routines run in order

  /** The operation that a step of fiber f performs, told by what it does: a leaf is counted, a fiber
      is made for a routine, or a continuation is deferred. */
  function Performed(s: State, a: Action, f: nat): seq<Op> {
    if !(a.Operate? && Next(s, a).Some? && a.t < |s.threads| && RunsFiber(s.threads[a.t], f)) then []
    else
      var s' := Next(s, a).value;
      if s'.leaves > s.leaves then [Leaf]
      else if |s'.fibers| > |s.fibers| && IsAlive(s', |s'.fibers| - 1) then [Spawn(s'.fibers[|s'.fibers| - 1].rest)]
      else if a.t < |s'.threads| && s'.threads[a.t].deferred != [] then [Yield]
      else []
  }

  function PerformedAll(s: State, acts: seq<Action>, f: nat): seq<Op>
    decreases |acts|
  {
    if acts == [] || Next(s, acts[0]).None? then []
    else Performed(s, acts[0], f) + PerformedAll(Next(s, acts[0]).value, acts[1..], f)
  }

  lemma PerformsNext(s: State, a: Action, f: nat)
    requires Inv(s) && Next(s, a).Some? && f < |s.fibers| && IsAlive(Next(s, a).value, f)
    ensures IsAlive(s, f) && s.fibers[f].rest == Performed(s, a, f) + Next(s, a).value.fibers[f].rest
  {
    if a.t < |s.threads| {
      assert ThreadOk(s, s.threads[a.t]);
    }
  }

  /** A fiber performs the operations of its routine one by one and in their order: those performed
      in a run, followed by those to come, are those that were to come before. */
  lemma {:induction false} RoutinesRunInOrder(s: State, acts: seq<Action>, s': State, f: nat)
    requires Inv(s) && Exec(Next, s, acts) == Some(s') && f < |s.fibers| && IsAlive(s', f)
    ensures IsAlive(s, f) && s.fibers[f].rest == PerformedAll(s, acts, f) + s'.fibers[f].rest
    decreases |acts|
  {
    if acts != [] {
      var s1 := Next(s, acts[0]).value;
      InvStep(s, acts[0]);
      FibersStay(s, acts[0]);
      RoutinesRunInOrder(s1, acts[1..], s', f);
      PerformsNext(s, acts[0], f);
    }
  }

  lemma FibersStay(s: State, a: Action)
    requires Next(s, a).Some?
    ensures |s.fibers| <= |Next(s, a).value.fibers|
  {}

  // ---- The objects

  /** Fibers, scheduler queue and thread-local variables.  Each method is one step of thread t. */
  class Runtime {
    var fibers: seq<Fiber>
    var queue: seq<nat>
    var threads: seq<Thread>
    var mapped: nat
    ghost var leaves: nat
    ghost var outside: seq<seq<Op>>

    ghost function View(): State
      reads this
    {
      State(fibers, queue, threads, mapped, leaves, outside, false)
    }

    constructor (workers: nat, outsiders: nat)
      ensures View() == Init(workers, outsiders)
    {
      fibers, queue, mapped, leaves, outside := [], [], 0, 0, [];
      threads := seq(workers + outsiders, t => Thread(t < workers, Resting, None, [], []));
    }

    /** StackPool::Get of thread t, with AllocateNewStack outside the lock. */
    method AcquireStack(t: nat) returns (stack: nat)
      requires t < |threads|
      modifies this`threads, this`mapped
      ensures (View(), stack) == GetStack(old(View()), t)
    {
      var pool := threads[t].pool;
      if |pool| != 0 {
        stack := pool[|pool| - 1];
        threads := threads[t := threads[t].(pool := pool[..|pool| - 1])];
      } else {
        stack := mapped;
        mapped := mapped + 1;
      }
    }

    /** StackPool::Release of thread t: the next Get of t returns this stack and puts everything
        back as it was, so no other pool, no fiber and no count of stacks has changed. */
    method ReleaseStack(t: nat, stack: nat)
      requires t < |threads|
      modifies this`threads
      ensures |threads| == |old(threads)| && GetStack(View(), t) == (old(View()), stack)
    {
      threads := threads[t := threads[t].(pool := threads[t].pool + [stack])];
      assert threads[t].pool[..|threads[t].pool| - 1] == old(threads[t].pool);
      assert threads[t := old(threads[t])] == old(threads);
    }

    /** new Fiber(routine). */
    method NewFiberOn(t: nat, routine: seq<Op>) returns (fiber: nat)
      requires t < |threads|
      modifies this
      ensures View() == NewFiber(old(View()), t, routine)
      ensures fiber == |old(fibers)|
    {
      ghost var before := View();
      var stack := AcquireStack(t);
      fiber := |fibers|;
      fibers := fibers + [Alive(routine, stack, false)];
    }

    /** The first half of Spawn, outside the pool. */
    method SpawnFromOutside(t: nat, routine: seq<Op>)
      requires Next(View(), SpawnOutside(t, routine)).Some?
      modifies this
      ensures Some(View()) == Next(old(View()), SpawnOutside(t, routine))
    {
      var child := NewFiberOn(t, routine);
      threads := threads[t := threads[t].(doing := SpawningOutside(child))];
      outside := outside + [routine];
    }

    /** Fiber::Schedule, outside the pool. */
    method ScheduleFromOutside(t: nat)
      requires Next(View(), SubmitOutside(t)).Some?
      modifies this
      ensures Some(View()) == Next(old(View()), SubmitOutside(t))
    {
      queue := queue + [threads[t].doing.child];
      threads := threads[t := threads[t].(doing := Resting)];
    }

    /** Dispatch, up to the switch into the coroutine. */
    method DispatchBegin(t: nat, k: nat)
      requires Inv(View()) && Next(View(), Take(t, k)).Some?
      modifies this
      ensures Some(View()) == Next(old(View()), Take(t, k))
    {
      var f := queue[k];
      assert Fresh(View(), f);
      var prev := threads[t].current;
      queue := queue[..k] + queue[k+1..];
      threads := threads[t := threads[t].(doing := Running(f, prev), current := Some(f))];
    }

    /** The routine's next call: Yield up to Suspend, Spawn up to Schedule, a leaf, or the end. */
    method RoutineStep(t: nat)
      requires Inv(View()) && Next(View(), Operate(t)).Some?
      modifies this
      ensures Some(View()) == Next(old(View()), Operate(t))
    {
      assert ThreadOk(View(), threads[t]);
      var Running(f, prev) := threads[t].doing;
      if fibers[f].rest == [] {
        fibers := fibers[f := fibers[f].(completed := true)];
        threads := threads[t := threads[t].(doing := Resumed(f, prev))];
        return;
      }
      var op := fibers[f].rest[0];
      fibers := fibers[f := fibers[f].(rest := fibers[f].rest[1..])];
      match op
      case Leaf =>
        leaves := leaves + 1;
      case Yield =>
        var current := threads[t].current.value;
        threads := threads[t := threads[t].(doing := Yielding(f, prev), deferred := threads[t].deferred + [current])];
      case Spawn(routine) =>
        var child := NewFiberOn(t, routine);
        threads := threads[t := threads[t].(doing := Spawning(f, prev, child))];
    }

    /** Fiber::Schedule for a child. */
    method ScheduleChild(t: nat)
      requires Next(View(), SubmitChild(t)).Some?
      modifies this
      ensures Some(View()) == Next(old(View()), SubmitChild(t))
    {
      queue := queue + [threads[t].doing.child];
      threads := threads[t := threads[t].(doing := Running(threads[t].doing.f, threads[t].doing.prev))];
    }

    /** Dispatch, after the coroutine has come back: current_fiber, and Destroy if it is completed. */
    method DispatchEnd(t: nat)
      requires Inv(View()) && Next(View(), EndDispatch(t)).Some?
      modifies this
      ensures Some(View()) == Next(old(View()), EndDispatch(t))
    {
      assert ThreadOk(View(), threads[t]);
      var Resumed(f, prev) := threads[t].doing;
      ghost var before := threads;
      threads := threads[t := threads[t].(current := prev, doing := Ending)];
      if fibers[f].completed {
        ghost var held := View();
        ReleaseStack(t, fibers[f].stack);
        GetUndoesRelease(held, t, fibers[f].stack, View());
        assert threads == before[t := threads[t]];
        fibers := fibers[f := Destroyed];
      }
    }

    /** The scheduler, at the end of a task: the continuations it deferred become runnable. */
    method TaskEnd(t: nat)
      requires Next(View(), EndTask(t)).Some?
      modifies this
      ensures Some(View()) == Next(old(View()), EndTask(t))
    {
      queue := queue + threads[t].deferred;
      threads := threads[t := threads[t].(doing := Resting, deferred := [])];
    }
  }
}
