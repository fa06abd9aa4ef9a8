/** mtf::coroutine::impl::Coroutine (tasks/coroutine/mtf/coroutine/impl.cpp).

    The machine below has what the code has: a thread-local pointer `current`, two saved contexts
    per coroutine, the local variable `last` of every Resume in progress, and the exception slot.
    A context is the identity of the stack it was saved from.  Client code may do anything at any
    time: resume a coroutine that is not active, suspend, finish or throw, on any thread.
    The plain call stack that all this must amount to is the second machine. */
module Coroutine {
  import opened Runs

  /** Whose stack a thread executes: its own, or that of a coroutine's routine. */
  datatype Entity = Root(i: nat) | Body(c: nat)

  /** Where the code on a stack stands. */
  datatype Stop =
    | Live                                   // being executed
    | Fresh                                  // prepared by Setup, not started
    | InResume(target: nat, last: Option<nat>) // inside target.Resume(), before current is put back
    | InSuspend                              // inside Suspend()
    | Gone                                   // left by ExitTo

  datatype Thread = Thread(current: Option<nat>, running: Entity, at: Stop)

  datatype Co = Co(coroutineContext: Entity, callerContext: Option<Entity>,
                   completed: bool, exception: Option<nat>, at: Stop)

  /** What the client sees: its coroutine starts or goes on, or its Resume call is over. */
  datatype Event =
    | Enters(i: nat, c: nat)
    | Returns(i: nat, to: Entity, c: nat, threw: Option<nat>, current: Option<nat>)

  /** `broken` records a null pointer followed, or a switch to a place that is not a switch. */
  datatype State = State(threads: seq<Thread>, cos: seq<Co>, log: seq<Event>, broken: bool)

  datatype Action =
    | Resume(i: nat, c: nat)                   // the code running on thread i calls c.Resume()
    | Suspend(i: nat)                          // it calls Coroutine::Suspend()
    | Finish(i: nat, thrown: Option<nat>)      // the routine running on thread i returns or throws

  predicate Known(s: State, e: Entity) {
    match e
    case Root(i) => i < |s.threads|
    case Body(c) => c < |s.cos|
  }

  function At(s: State, e: Entity): Stop
    requires Known(s, e)
  {
    match e
    case Root(i) => s.threads[i].at
    case Body(c) => s.cos[c].at
  }

  function PutAt(s: State, e: Entity, at: Stop): State
    requires Known(s, e)
  {
    match e
    case Root(i) => s.(threads := s.threads[i := s.threads[i].(at := at)])
    case Body(c) => s.(cos := s.cos[c := s.cos[c].(at := at)])
  }

  function SetThread(s: State, i: nat, current: Option<nat>, running: Entity): State
    requires i < |s.threads|
  {
    s.(threads := s.threads[i := s.threads[i].(current := current, running := running)])
  }

  /** std::exchange(current, this), then caller_context_.SwitchTo(coroutine_context_). */
  function DoResume(s: State, i: nat, c: nat): State
    requires i < |s.threads| && c < |s.cos| && Known(s, s.threads[i].running)
  {
    var me, last := s.threads[i].running, s.threads[i].current;
    var s1 := PutAt(s, me, InResume(c, last));
    var s2 := s1.(cos := s1.cos[c := s1.cos[c].(callerContext := Some(me))]);
    var target := s2.cos[c].coroutineContext;
    if !Known(s2, target) then s2.(broken := true)
    else SetThread(PutAt(s2, target, Live), i, Some(c), target).(log := s.log + [Enters(i, c)])
  }

  /** Thread i arrives on the stack `target`: the rest of the Resume call it finds there. */
  function AfterSwitch(s: State, i: nat, target: Option<Entity>): State
    requires i < |s.threads|
  {
    if target.None? || !Known(s, target.value) then s.(broken := true)
    else
      match At(s, target.value)
      case InResume(c, last) =>
        if c >= |s.cos| then s.(broken := true)
        else SetThread(PutAt(s, target.value, Live), i, last, target.value)
             .(log := s.log + [Returns(i, target.value, c, s.cos[c].exception, last)])
      case _ => s.(broken := true)
  }

  /** current->coroutine_context_.SwitchTo(current->caller_context_). */
  function DoSuspend(s: State, i: nat): State
    requires i < |s.threads| && Known(s, s.threads[i].running)
  {
    var me := s.threads[i].running;
    match s.threads[i].current
    case None => s.(broken := true)
    case Some(cur) =>
      if cur >= |s.cos| then s.(broken := true)
      else
        var s1 := PutAt(s, me, InSuspend);
        var s2 := s1.(cos := s1.cos[cur := s1.cos[cur].(coroutineContext := me)]);
        AfterSwitch(s2, i, s2.cos[cur].callerContext)
  }

  /** The end of Trampoline: exception_, is_completed_, ExitTo(caller_context_). */
  function DoFinish(s: State, i: nat, thrown: Option<nat>): State
    requires i < |s.threads| && Known(s, s.threads[i].running)
  {
    var me := s.threads[i].running;
    match s.threads[i].current
    case None => s.(broken := true)
    case Some(cur) =>
      if cur >= |s.cos| then s.(broken := true)
      else
        var s1 := PutAt(s, me, Gone);
        var s2 := s1.(cos := s1.cos[cur := s1.cos[cur].(
                    exception := if thrown.Some? then thrown else s1.cos[cur].exception, completed := true)]);
        AfterSwitch(s2, i, s2.cos[cur].callerContext)
  }

  /** Client rules: only coroutines that are neither completed nor active are resumed; Suspend and
      the end of a routine happen inside coroutines. */
  function Next(s: State, a: Action): Option<State> {
    if a.i >= |s.threads| || !Known(s, s.threads[a.i].running) then None
    else match a
      case Resume(i, c) =>
        if c < |s.cos| && !s.cos[c].completed && (s.cos[c].at == Fresh || s.cos[c].at == InSuspend)
        then Some(DoResume(s, i, c)) else None
      case Suspend(i) => if s.threads[i].running.Body? then Some(DoSuspend(s, i)) else None
      case Finish(i, thrown) => if s.threads[i].running.Body? then Some(DoFinish(s, i, thrown)) else None
  }

  function Init(threads: nat, cos: nat): State {
    State(seq(threads, i requires 0 <= i < threads => Thread(None, Root(i), Live)),
          seq(cos, c requires 0 <= c < cos => Co(Body(c), None, false, None, Fresh)),
          [], false)
  }

  // ---- The plain call stack

  datatype Status = Idle | Active | Done

  /** For every thread the coroutines it is inside of, innermost last. */
  datatype Calls = Calls(stacks: seq<seq<nat>>, status: seq<Status>, log: seq<Event>)

  function Below(i: nat, stack: seq<nat>): Entity {
    if stack == [] then Root(i) else Body(stack[|stack| - 1])
  }

  function Innermost(stack: seq<nat>): Option<nat> {
    if stack == [] then None else Some(stack[|stack| - 1])
  }

  function Pop(p: Calls, i: nat, status: Status, threw: Option<nat>): Calls
    requires i < |p.stacks| && p.stacks[i] != [] && p.stacks[i][|p.stacks[i]| - 1] < |p.status|
  {
    var stack := p.stacks[i];
    var c, rest := stack[|stack| - 1], stack[..|stack| - 1];
    Calls(p.stacks[i := rest], p.status[c := status], p.log + [Returns(i, Below(i, rest), c, threw, Innermost(rest))])
  }

  function CallsNext(p: Calls, a: Action): Option<Calls> {
    if a.i >= |p.stacks| then None
    else match a
      case Resume(i, c) =>
        if c < |p.status| && p.status[c] == Idle
        then Some(Calls(p.stacks[i := p.stacks[i] + [c]], p.status[c := Active], p.log + [Enters(i, c)])) else None
      case Suspend(i) =>
        if p.stacks[i] != [] && p.stacks[i][|p.stacks[i]| - 1] < |p.status| then Some(Pop(p, i, Idle, None)) else None
      case Finish(i, thrown) =>
        if p.stacks[i] != [] && p.stacks[i][|p.stacks[i]| - 1] < |p.status| then Some(Pop(p, i, Done, thrown)) else None
  }

  function CallsInit(threads: nat, cos: nat): Calls {
    Calls(seq(threads, _ => []), seq(cos, _ => Idle), [])
  }

  // ---- The simulation

  /** Level k of thread i's stack: who called stack[k].Resume(), and what it will put back. */
  ghost predicate LevelOk(s: State, p: Calls, i: nat, k: nat)
    requires i < |p.stacks| && k < |p.stacks[i]|
  {
    var stack := p.stacks[i];
    var c, caller := stack[k], Below(i, stack[..k]);
    && c < |s.cos| && c < |p.status| && p.status[c] == Active
    && s.cos[c].callerContext == Some(caller)
    && Known(s, caller) && At(s, caller) == InResume(c, Innermost(stack[..k]))
  }

  ghost predicate ThreadOk(s: State, p: Calls, i: nat)
    requires i < |s.threads| && i < |p.stacks|
  {
    var stack := p.stacks[i];
    && s.threads[i].running == Below(i, stack)
    && s.threads[i].current == Innermost(stack)
    && Known(s, Below(i, stack)) && At(s, Below(i, stack)) == Live
    && forall k: nat :: k < |stack| ==> LevelOk(s, p, i, k)
  }

  ghost predicate CoOk(s: State, p: Calls, c: nat)
    requires c < |s.cos| && c < |p.status|
  {
    && s.cos[c].coroutineContext == Body(c)
    && (s.cos[c].completed <==> p.status[c] == Done)
    && (p.status[c] != Done ==> s.cos[c].exception == None)
    && (p.status[c] == Idle ==> s.cos[c].at == Fresh || s.cos[c].at == InSuspend)
    && (p.status[c] == Active ==> s.cos[c].at == Live || s.cos[c].at.InResume?)
    && (p.status[c] == Done ==> s.cos[c].at == Gone)
  }

  predicate Place(p: Calls, i: nat, k: nat) {
    i < |p.stacks| && k < |p.stacks[i]|
  }

  /** No coroutine is active in two places. */
  ghost predicate Distinct(p: Calls) {
    forall i: nat, k: nat, j: nat, m: nat ::
      Place(p, i, k) && Place(p, j, m) && (i != j || k != m) ==> p.stacks[i][k] != p.stacks[j][m]
  }

  ghost predicate Simulates(s: State, p: Calls) {
    && |s.threads| == |p.stacks| && |s.cos| == |p.status| && s.log == p.log && !s.broken
    && Distinct(p)
    && (forall i: nat :: i < |p.stacks| ==> ThreadOk(s, p, i))
    && (forall c: nat :: c < |p.status| ==> CoOk(s, p, c))
  }

  /** A level of a stack that a step leaves alone: its coroutine keeps its caller context, and its
      caller stays where it stands. */
  lemma LevelStays(s: State, p: Calls, s': State, p': Calls, j: nat, k: nat)
    requires j < |p.stacks| == |p'.stacks| && k < |p.stacks[j]| && k < |p'.stacks[j]|
    requires p'.stacks[j][..k+1] == p.stacks[j][..k+1]
    requires LevelOk(s, p, j, k)
    requires var c, caller := p.stacks[j][k], Below(j, p.stacks[j][..k]);
      && c < |s'.cos| && c < |p'.status| && p'.status[c] == Active
      && s'.cos[c].callerContext == s.cos[c].callerContext
      && Known(s', caller) && At(s', caller) == At(s, caller)
    ensures LevelOk(s', p', j, k)
  {
    assert p'.stacks[j][k] == p'.stacks[j][..k+1][k] == p.stacks[j][k];
    assert p'.stacks[j][..k] == p'.stacks[j][..k+1][..k] == p.stacks[j][..k];
  }

  lemma ActiveOnStacks(s: State, p: Calls, j: nat, k: nat)
    requires Simulates(s, p) && Place(p, j, k)
    ensures p.stacks[j][k] < |p.status| && p.status[p.stacks[j][k]] == Active
  {
    assert ThreadOk(s, p, j);
    assert LevelOk(s, p, j, k);
  }

  lemma PushDistinct(p: Calls, i: nat, c: nat, p': Calls)
    requires Distinct(p) && i < |p.stacks| && p'.stacks == p.stacks[i := p.stacks[i] + [c]]
    requires forall j: nat, k: nat :: Place(p, j, k) ==> p.stacks[j][k] != c
    ensures Distinct(p')
  {
    forall a: nat, k: nat, b: nat, m: nat | Place(p', a, k) && Place(p', b, m) && (a != b || k != m)
      ensures p'.stacks[a][k] != p'.stacks[b][m]
    {
      assert Place(p, a, k) || (a == i && k == |p.stacks[i]|);
      assert Place(p, b, m) || (b == i && m == |p.stacks[i]|);
    }
  }

  /** What Resume does, place by place, when the pointers are as they should be. */
  lemma ResumeEffect(s: State, p: Calls, i: nat, c: nat)
    requires Simulates(s, p) && CallsNext(p, Resume(i, c)).Some?
    ensures Next(s, Resume(i, c)).Some?
    ensures var s', me := Next(s, Resume(i, c)).value, Below(i, p.stacks[i]);
      && |s'.threads| == |s.threads| && |s'.cos| == |s.cos|
      && !s'.broken && s'.log == s.log + [Enters(i, c)]
      && s'.threads[i].running == Body(c) && s'.threads[i].current == Some(c)
      && (forall j: nat :: j < |s.threads| && j != i ==> s'.threads[j] == s.threads[j])
      && Known(s, me) && me != Body(c)
      && (forall e :: Known(s, e) && e != me && e != Body(c) ==> At(s', e) == At(s, e))
      && At(s', me) == InResume(c, Innermost(p.stacks[i])) && At(s', Body(c)) == Live
      && s'.cos[c].callerContext == Some(me)
      && (forall d: nat :: d < |s.cos| && d != c ==> s'.cos[d].callerContext == s.cos[d].callerContext)
  {
    assert ThreadOk(s, p, i) && CoOk(s, p, c);
    hide ThreadOk, Distinct;
  }

  lemma ResumeThreads(s: State, p: Calls, i: nat, c: nat, j: nat)
    requires Simulates(s, p) && CallsNext(p, Resume(i, c)).Some? && j < |p.stacks|
    requires Next(s, Resume(i, c)).Some?
    ensures var s', p' := Next(s, Resume(i, c)).value, CallsNext(p, Resume(i, c)).value;
      |s'.threads| == |p'.stacks| == |p.stacks| && ThreadOk(s', p', j)
  {
    ResumeEffect(s, p, i, c);
    assert ThreadOk(s, p, i) && CoOk(s, p, c) && ThreadOk(s, p, j);
    var s', p' := Next(s, Resume(i, c)).value, CallsNext(p, Resume(i, c)).value;
    hide Next;
    if j != i {
      assert p'.stacks[j] == p.stacks[j];
      if p.stacks[j] != [] { ActiveOnStacks(s, p, j, |p.stacks[j]| - 1); }
      if p.stacks[i] != [] && p.stacks[j] != [] {
        assert Place(p, i, |p.stacks[i]| - 1) && Place(p, j, |p.stacks[j]| - 1);
      }
    }
    forall k: nat | k < |p'.stacks[j]| ensures LevelOk(s', p', j, k) {
      ResumeLevels(s, p, i, c, j, k);
    }
  }

  lemma ResumeLevels(s: State, p: Calls, i: nat, c: nat, j: nat, k: nat)
    requires Simulates(s, p) && CallsNext(p, Resume(i, c)).Some? && Next(s, Resume(i, c)).Some?
    requires Place(CallsNext(p, Resume(i, c)).value, j, k)
    ensures LevelOk(Next(s, Resume(i, c)).value, CallsNext(p, Resume(i, c)).value, j, k)
  {
    ResumeEffect(s, p, i, c);
    var s', p' := Next(s, Resume(i, c)).value, CallsNext(p, Resume(i, c)).value;
    assert ThreadOk(s, p, i) && CoOk(s, p, c) && ThreadOk(s, p, j);
    hide Next;
    if j == i && k == |p.stacks[i]| {
      assert p'.stacks[i][..k] == p.stacks[i];
    } else {
      assert p'.stacks[j][..k+1] == p.stacks[j][..k+1];
      assert LevelOk(s, p, j, k);
      if k > 0 {
        ActiveOnStacks(s, p, j, k - 1);
        assert Place(p, j, k - 1);
      }
      if p.stacks[i] != [] { assert Place(p, i, |p.stacks[i]| - 1); }
      LevelStays(s, p, s', p', j, k);
    }
  }

  lemma ResumeCos(s: State, p: Calls, i: nat, c: nat, d: nat)
    requires Simulates(s, p) && CallsNext(p, Resume(i, c)).Some? && d < |p.status|
    requires Next(s, Resume(i, c)).Some?
    ensures var s', p' := Next(s, Resume(i, c)).value, CallsNext(p, Resume(i, c)).value;
      |s'.cos| == |p'.status| == |p.status| && CoOk(s', p', d)
  {
    assert ThreadOk(s, p, i) && CoOk(s, p, c) && CoOk(s, p, d);
    var stack := p.stacks[i];
    if stack != [] {
      ActiveOnStacks(s, p, i, |stack| - 1);
    }
  }

  lemma ResumeSimulates(s: State, p: Calls, i: nat, c: nat)
    requires Simulates(s, p) && CallsNext(p, Resume(i, c)).Some?
    ensures Next(s, Resume(i, c)).Some? && Simulates(Next(s, Resume(i, c)).value, CallsNext(p, Resume(i, c)).value)
  {
    assert ThreadOk(s, p, i) && CoOk(s, p, c);
    var s', p' := Next(s, Resume(i, c)).value, CallsNext(p, Resume(i, c)).value;
    assert !s'.broken && s'.log == p'.log;
    forall j: nat, k: nat | Place(p, j, k) ensures p.stacks[j][k] != c {
      ActiveOnStacks(s, p, j, k);
    }
    PushDistinct(p, i, c, p');
    forall j: nat | j < |p.stacks| ensures |s'.threads| == |p'.stacks| == |p.stacks| && ThreadOk(s', p', j) {
      ResumeThreads(s, p, i, c, j);
    }
    forall d: nat | d < |p.status| ensures |s'.cos| == |p'.status| == |p.status| && CoOk(s', p', d) {
      ResumeCos(s, p, i, c, d);
    }
    hide Next, CallsNext, ThreadOk, CoOk, Distinct;
  }

  predicate Leaving(p: Calls, a: Action) {
    (a.Suspend? || a.Finish?) && a.i < |p.stacks| && p.stacks[a.i] != []
  }

  function Top(p: Calls, a: Action): nat
    requires Leaving(p, a)
  {
    p.stacks[a.i][|p.stacks[a.i]| - 1]
  }

  function Rest(p: Calls, a: Action): seq<nat>
    requires Leaving(p, a)
  {
    p.stacks[a.i][..|p.stacks[a.i]| - 1]
  }

  /** What Suspend and the end of a routine do, place by place. */
  lemma LeaveEffect(s: State, p: Calls, a: Action)
    requires Simulates(s, p) && Leaving(p, a)
    ensures Next(s, a).Some?
    ensures var s', c, to := Next(s, a).value, Top(p, a), Below(a.i, Rest(p, a));
      && |s'.threads| == |s.threads| && |s'.cos| == |s.cos| && c < |s.cos|
      && !s'.broken
      && s'.log == s.log + [Returns(a.i, to, c, if a.Finish? then a.thrown else None, Innermost(Rest(p, a)))]
      && s'.threads[a.i].running == to && s'.threads[a.i].current == Innermost(Rest(p, a))
      && (forall j: nat :: j < |s.threads| && j != a.i ==> s'.threads[j] == s.threads[j])
      && Known(s, to) && to != Body(c)
      && (forall e :: Known(s, e) && e != to && e != Body(c) ==> At(s', e) == At(s, e))
      && At(s', to) == Live && At(s', Body(c)) == (if a.Finish? then Gone else InSuspend)
      && (forall d: nat :: d < |s.cos| ==> s'.cos[d].callerContext == s.cos[d].callerContext)
      && (forall d: nat :: d < |s.cos| && d != c ==> s'.cos[d].(at := Live) == s.cos[d].(at := Live))
      && s'.cos[c].coroutineContext == Body(c) && s'.cos[c].completed == a.Finish?
      && (a.Suspend? ==> s'.cos[c].exception == None)
  {
    assert ThreadOk(s, p, a.i);
    var k := |p.stacks[a.i]| - 1;
    assert LevelOk(s, p, a.i, k);
    assert CoOk(s, p, Top(p, a));
    if k > 0 {
      assert Place(p, a.i, k - 1) && Place(p, a.i, k);
    }
    hide ThreadOk, Distinct;
  }

  lemma PopDistinct(p: Calls, a: Action, p': Calls)
    requires Distinct(p) && Leaving(p, a) && p'.stacks == p.stacks[a.i := Rest(p, a)]
    ensures Distinct(p')
  {
    forall j: nat, k: nat, b: nat, m: nat | Place(p', j, k) && Place(p', b, m) && (j != b || k != m)
      ensures p'.stacks[j][k] != p'.stacks[b][m]
    {
      assert Place(p, j, k) && Place(p, b, m);
    }
  }

  lemma LeaveLevels(s: State, p: Calls, a: Action, j: nat, k: nat)
    requires Simulates(s, p) && Leaving(p, a) && CallsNext(p, a).Some? && Next(s, a).Some?
    requires Place(CallsNext(p, a).value, j, k)
    ensures LevelOk(Next(s, a).value, CallsNext(p, a).value, j, k)
  {
    LeaveEffect(s, p, a);
    var s', p' := Next(s, a).value, CallsNext(p, a).value;
    hide Next;
    assert ThreadOk(s, p, a.i) && ThreadOk(s, p, j);
    assert Place(p, j, k) && LevelOk(s, p, j, k);
    assert p'.stacks[j][..k+1] == p.stacks[j][..k+1];
    var top := |p.stacks[a.i]| - 1;
    assert Place(p, a.i, top);
    ActiveOnStacks(s, p, j, k);
    if k > 0 { assert Place(p, j, k - 1); }
    if top > 0 { assert Place(p, a.i, top - 1); }
    LevelStays(s, p, s', p', j, k);
  }

  lemma LeaveThreads(s: State, p: Calls, a: Action, j: nat)
    requires Simulates(s, p) && Leaving(p, a) && CallsNext(p, a).Some? && Next(s, a).Some? && j < |p.stacks|
    ensures var s', p' := Next(s, a).value, CallsNext(p, a).value;
      |s'.threads| == |p'.stacks| == |p.stacks| && ThreadOk(s', p', j)
  {
    LeaveEffect(s, p, a);
    var s', p' := Next(s, a).value, CallsNext(p, a).value;
    hide Next;
    assert ThreadOk(s, p, a.i) && ThreadOk(s, p, j);
    if j != a.i {
      var top := |p.stacks[a.i]| - 1;
      assert Place(p, a.i, top);
      if top > 0 { assert Place(p, a.i, top - 1); }
      if p.stacks[j] != [] { assert Place(p, j, |p.stacks[j]| - 1); }
    }
    forall k: nat | k < |p'.stacks[j]| ensures LevelOk(s', p', j, k) {
      LeaveLevels(s, p, a, j, k);
    }
  }

  lemma LeaveCos(s: State, p: Calls, a: Action, d: nat)
    requires Simulates(s, p) && Leaving(p, a) && CallsNext(p, a).Some? && Next(s, a).Some? && d < |p.status|
    ensures var s', p' := Next(s, a).value, CallsNext(p, a).value;
      |s'.cos| == |p'.status| == |p.status| && CoOk(s', p', d)
  {
    LeaveEffect(s, p, a);
    var s', p' := Next(s, a).value, CallsNext(p, a).value;
    var top := |p.stacks[a.i]| - 1;
    assert ThreadOk(s, p, a.i) && CoOk(s, p, d);
    ActiveOnStacks(s, p, a.i, top);
    if top > 0 {
      ActiveOnStacks(s, p, a.i, top - 1);
    }
    hide Next, ThreadOk, Distinct;
    assert Known(s, Body(d));
  }

  lemma LeaveSimulates(s: State, p: Calls, a: Action)
    requires Simulates(s, p) && Leaving(p, a) && CallsNext(p, a).Some?
    ensures Next(s, a).Some? && Simulates(Next(s, a).value, CallsNext(p, a).value)
  {
    LeaveEffect(s, p, a);
    var s', p' := Next(s, a).value, CallsNext(p, a).value;
    PopDistinct(p, a, p');
    assert s'.log == p'.log;
    forall j: nat | j < |p.stacks| ensures |s'.threads| == |p'.stacks| == |p.stacks| && ThreadOk(s', p', j) {
      LeaveThreads(s, p, a, j);
    }
    forall d: nat | d < |p.status| ensures |s'.cos| == |p'.status| == |p.status| && CoOk(s', p', d) {
      LeaveCos(s, p, a, d);
    }
    hide Next, CallsNext, ThreadOk, CoOk, Distinct;
  }

  lemma StepSimulates(s: State, p: Calls, a: Action)
    requires Simulates(s, p) && CallsNext(p, a).Some?
    ensures Next(s, a).Some? && Simulates(Next(s, a).value, CallsNext(p, a).value)
  {
    match a
    case Resume(i, c) => ResumeSimulates(s, p, i, c);
    case _ => LeaveSimulates(s, p, a);
  }

  /** The pointer machine can do nothing that the call stack cannot. */
  lemma OnlyCalls(s: State, p: Calls, a: Action)
    requires Simulates(s, p) && Next(s, a).Some?
    ensures CallsNext(p, a).Some?
  {
    assert ThreadOk(s, p, a.i);
    match a
    case Resume(i, c) => assert CoOk(s, p, c);
    case _ =>
      ActiveOnStacks(s, p, a.i, |p.stacks[a.i]| - 1);
  }

  // ---- Whole runs

  lemma {:induction false} RunSimulates(s: State, p: Calls, acts: seq<Action>)
    requires Simulates(s, p)
    ensures Exec(Next, s, acts).Some? <==> Exec(CallsNext, p, acts).Some?
    ensures Exec(Next, s, acts).Some? ==> Simulates(Exec(Next, s, acts).value, Exec(CallsNext, p, acts).value)
    decreases |acts|
  {
    if acts != [] {
      if CallsNext(p, acts[0]).Some? {
        StepSimulates(s, p, acts[0]);
        hide Next, CallsNext, Simulates;
        RunSimulates(Next(s, acts[0]).value, CallsNext(p, acts[0]).value, acts[1..]);
      } else if Next(s, acts[0]).Some? {
        OnlyCalls(s, p, acts[0]);
      }
    }
  }

  lemma InitSimulates(threads: nat, cos: nat)
    ensures Simulates(Init(threads, cos), CallsInit(threads, cos))
  {
    var s, p := Init(threads, cos), CallsInit(threads, cos);
    forall i: nat | i < threads ensures ThreadOk(s, p, i) {}
    forall c: nat | c < cos ensures CoOk(s, p, c) {}
  }

  /** For every program, on every thread: the pointer machine can run it exactly when the call stack
      can, it follows no bad pointer, and its client sees the same entries and returns, each return
      with the caller, the exception and the value of `current` that the call stack gives it. */
  lemma PointersAreACallStack(threads: nat, cos: nat, acts: seq<Action>)
    ensures var s, p := Exec(Next, Init(threads, cos), acts), Exec(CallsNext, CallsInit(threads, cos), acts);
      && (s.Some? <==> p.Some?)
      && (s.Some? ==> !s.value.broken && s.value.log == p.value.log)
  {
    InitSimulates(threads, cos);
    RunSimulates(Init(threads, cos), CallsInit(threads, cos), acts);
  }

  /** Thread i stays inside the calls it was in when its stack had height h. */
  predicate StaysInside(p: Calls, acts: seq<Action>, i: nat, h: nat)
    decreases |acts|
  {
    && i < |p.stacks| && |p.stacks[i]| >= h
    && (acts != [] && CallsNext(p, acts[0]).Some? ==> StaysInside(CallsNext(p, acts[0]).value, acts[1..], i, h))
  }

  lemma {:induction false} InsideKeepsStack(p: Calls, acts: seq<Action>, i: nat, h: nat)
    requires StaysInside(p, acts, i, h) && Exec(CallsNext, p, acts).Some?
    ensures var p' := Exec(CallsNext, p, acts).value;
      i < |p'.stacks| && |p'.stacks[i]| >= h && p'.stacks[i][..h] == p.stacks[i][..h]
    decreases |acts|
  {
    if acts != [] {
      var p1 := CallsNext(p, acts[0]).value;
      assert StaysInside(p1, acts[1..], i, h);
      assert p1.stacks[i][..h] == p.stacks[i][..h];
      InsideKeepsStack(p1, acts[1..], i, h);
    }
  }

  /** Whatever happens between a Resume and its end, on this thread and on others, when thread i is
      back at the height where it called, the same code runs there with the same `current`. */
  lemma ResumeReturnsToItsCaller(s: State, p: Calls, acts: seq<Action>, i: nat)
    requires Simulates(s, p) && Exec(CallsNext, p, acts).Some? && i < |p.stacks|
    requires StaysInside(p, acts, i, |p.stacks[i]|)
    requires var p' := Exec(CallsNext, p, acts).value; i < |p'.stacks| && |p'.stacks[i]| == |p.stacks[i]|
    ensures Exec(Next, s, acts).Some?
    ensures var s' := Exec(Next, s, acts).value;
      && i < |s.threads| && i < |s'.threads|
      && s'.threads[i].running == s.threads[i].running && s'.threads[i].current == s.threads[i].current
  {
    var p' := Exec(CallsNext, p, acts).value;
    InsideKeepsStack(p, acts, i, |p.stacks[i]|);
    assert p'.stacks[i] == p.stacks[i];
    RunSimulates(s, p, acts);
    assert ThreadOk(s, p, i) && ThreadOk(Exec(Next, s, acts).value, p', i);
  }

  /** Suspend stops exactly the innermost coroutine of its thread, and an exception that leaves a
      routine arrives, as itself, at the Resume call that was running the routine. */
  lemma LeavingEndsTheInnermostCall(s: State, p: Calls, a: Action)
    requires Simulates(s, p) && Leaving(p, a) && CallsNext(p, a).Some?
    ensures Next(s, a).Some?
    ensures var s', c, caller := Next(s, a).value, Top(p, a), Below(a.i, Rest(p, a));
      && s.threads[a.i].running == Body(c) && s'.threads[a.i].running == caller
      && |s'.log| > 0 && s'.log[|s'.log| - 1].Returns? && s'.log[|s'.log| - 1].c == c
      && s'.log[|s'.log| - 1].threw == (if a.Finish? then a.thrown else None)
      && (c < |s'.cos| && (s'.cos[c].completed <==> a.Finish?))
  {
    LeaveEffect(s, p, a);
    assert ThreadOk(s, p, a.i);
    hide Next;
  }

  // ---- The objects

  /** The threads and coroutines of a program.  `calls` is the call stack they amount to: every
      operation keeps the pointers in step with it. */
  class Runtime {
    var threads: seq<Thread>
    var cos: seq<Co>
    ghost var log: seq<Event>
    ghost var calls: Calls

    ghost function View(): State
      reads this
    {
      State(threads, cos, log, false)
    }

    ghost predicate Valid()
      reads this
    {
      Simulates(View(), calls)
    }

    constructor (threads: nat, cos: nat)
      ensures Valid() && View() == Init(threads, cos) && calls == CallsInit(threads, cos)
    {
      this.threads := seq(threads, i requires 0 <= i < threads => Thread(None, Root(i), Live));
      this.cos := seq(cos, c requires 0 <= c < cos => Co(Body(c), None, false, None, Fresh));
      log := [];
      calls := CallsInit(threads, cos);
      new;
      assert this.threads == Init(threads, cos).threads && this.cos == Init(threads, cos).cos;
      InitSimulates(threads, cos);
    }

    function Where(e: Entity): Stop
      requires Known(View(), e)
      reads this
    {
      match e
      case Root(i) => threads[i].at
      case Body(c) => cos[c].at
    }

    method StopAt(e: Entity, at: Stop)
      requires Known(View(), e)
      modifies this`threads, this`cos
      ensures View() == PutAt(old(View()), e, at)
    {
      match e
      case Root(i) => threads := threads[i := threads[i].(at := at)];
      case Body(c) => cos := cos[c := cos[c].(at := at)];
    }

    /** The second half of the Resume call that thread i finds on the stack it arrives on. */
    method EndResume(i: nat, target: Entity) returns (threw: Option<nat>)
      requires i < |threads| && Known(View(), target) && Where(target).InResume? && Where(target).target < |cos|
      modifies this
      ensures View() == AfterSwitch(old(View()), i, Some(target))
      ensures threw == old(cos[Where(target).target].exception)
      ensures calls == old(calls)
    {
      var InResume(c, last) := Where(target);
      threw := cos[c].exception;
      StopAt(target, Live);
      threads := threads[i := threads[i].(current := last, running := target)];
      log := log + [Returns(i, target, c, threw, last)];
    }

    /** The first half of Resume on thread i, up to the switch. */
    method Resume(i: nat, c: nat)
      requires Valid() && CallsNext(calls, Action.Resume(i, c)).Some?
      modifies this
      ensures Valid() && calls == CallsNext(old(calls), Action.Resume(i, c)).value
      ensures Some(View()) == Next(old(View()), Action.Resume(i, c))
    {
      ResumeSimulates(View(), calls, i, c);
      ResumeEffect(View(), calls, i, c);
      var me := threads[i].running;
      var last := threads[i].current;
      StopAt(me, InResume(c, last));
      cos := cos[c := cos[c].(callerContext := Some(me))];
      var target := cos[c].coroutineContext;
      assert CoOk(old(View()), calls, c);
      StopAt(target, Live);
      threads := threads[i := threads[i].(current := Some(c), running := target)];
      log := log + [Enters(i, c)];
      calls := CallsNext(calls, Action.Resume(i, c)).value;
    }

    /** Suspend on thread i, and the second half of the Resume call it ends; `threw` is what that
        call rethrows. */
    method Suspend(i: nat) returns (threw: Option<nat>)
      requires Valid() && i < |calls.stacks| && calls.stacks[i] != [] && CallsNext(calls, Action.Suspend(i)).Some?
      modifies this
      ensures Valid() && calls == CallsNext(old(calls), Action.Suspend(i)).value
      ensures Some(View()) == Next(old(View()), Action.Suspend(i))
      ensures threw == None
    {
      LeaveSimulates(View(), calls, Action.Suspend(i));
      LeaveEffect(View(), calls, Action.Suspend(i));
      ghost var before := View();
      assert ThreadOk(before, calls, i) && LevelOk(before, calls, i, |calls.stacks[i]| - 1);
      assert CoOk(before, calls, Top(calls, Action.Suspend(i)));
      hide Simulates, ThreadOk, CoOk;
      var me := threads[i].running;
      var cur := threads[i].current.value;
      StopAt(me, InSuspend);
      cos := cos[cur := cos[cur].(coroutineContext := me)];
      var target := cos[cur].callerContext.value;
      threw := EndResume(i, target);
      calls := CallsNext(calls, Action.Suspend(i)).value;
    }

    /** The end of Trampoline on thread i, and the second half of the Resume call it ends. */
    method Trampoline(i: nat, thrown: Option<nat>) returns (threw: Option<nat>)
      requires Valid() && i < |calls.stacks| && calls.stacks[i] != [] && CallsNext(calls, Finish(i, thrown)).Some?
      modifies this
      ensures Valid() && calls == CallsNext(old(calls), Finish(i, thrown)).value
      ensures Some(View()) == Next(old(View()), Finish(i, thrown))
      ensures threw == thrown
    {
      LeaveSimulates(View(), calls, Finish(i, thrown));
      LeaveEffect(View(), calls, Finish(i, thrown));
      ghost var before := View();
      assert ThreadOk(before, calls, i) && LevelOk(before, calls, i, |calls.stacks[i]| - 1);
      assert CoOk(before, calls, Top(calls, Finish(i, thrown)));
      hide Simulates, ThreadOk, CoOk;
      var me := threads[i].running;
      var cur := threads[i].current.value;
      StopAt(me, Gone);
      ghost var gone := View();
      if thrown.Some? {
        cos := cos[cur := cos[cur].(exception := thrown)];
      }
      cos := cos[cur := cos[cur].(completed := true)];
      assert View() == gone.(cos := gone.cos[cur := gone.cos[cur].(
                exception := if thrown.Some? then thrown else gone.cos[cur].exception, completed := true)]);
      var target := cos[cur].callerContext.value;
      threw := EndResume(i, target);
      calls := CallsNext(calls, Finish(i, thrown)).value;
    }
  }
}
