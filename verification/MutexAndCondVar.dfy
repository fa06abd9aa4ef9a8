/** stdlike::Mutex and stdlike::CondVar together, and the monitor they make.

    The condition variable's Wait calls Unlock and Lock of the futex mutex, operation by operation;
    clients lock, unlock, wait and notify as they please.  Each thread is at one place in the mutex
    and one in the condition variable.  A step of the mutex that acquires or releases it is, to the
    condition variable, the lock or unlock that the thread was about to make; the theorem is that
    the condition variable, which was modelled over an ideal lock, is never surprised by it. */
module MutexAndCondVar {
  import opened Runs
  import F = FutexMutex
  import C = CondVar
  import W = WaitSet

  datatype State = State(f: F.State, c: C.State, broken: bool)

  datatype Action = InMutex(b: F.Action) | InCond(a: C.Action)

  /** Lock is called by clients outside the condition variable and by Wait at its end, Unlock by
      clients and by Wait at its beginning; what a call has begun it goes on with. */
  predicate MayMutex(s: State, b: F.Action) {
    b.t < |s.c.pc| &&
    match b
    case Cas(t) => s.c.pc[t].Out? || s.c.pc[t].ToRelock?
    case FetchSub(t) => s.c.pc[t].Out? || s.c.pc[t].ToUnlock?
    case _ => true
  }

  /** The operations of Wait and of the notifications themselves; none while the thread is inside a
      call of the mutex.  Locking and unlocking is left to the mutex. */
  predicate MayCond(s: State, a: C.Action) {
    match a
    case Acquire(_) => false
    case Release(_) => false
    case Unlock(_) => false
    case Relock(_) => false
    case Spurious(_) => true
    case _ => a.t < |s.f.pc| && (s.f.pc[a.t].Idle? || s.f.pc[a.t].Critical?)
  }

  /** What a step of the mutex is to the condition variable: nothing, unless it acquires or releases. */
  function Effect(s: State, b: F.Action): Option<C.Action> {
    if F.Next(s.f, b).None? || b.t >= |s.f.pc| || b.t >= |s.c.pc| then None
    else
      var t, f' := b.t, F.Next(s.f, b).value;
      if t >= |f'.pc| then None
      else
        var before, after := F.Owns(s.f.pc[t]), F.Owns(f'.pc[t]);
        if !before && after then Some(if s.c.pc[t].ToRelock? then C.Relock(t) else C.Acquire(t))
        else if before && !after then Some(if s.c.pc[t].ToUnlock? then C.Unlock(t) else C.Release(t))
        else None
  }

  function Next(s: State, a: Action): Option<State> {
    match a
    case InMutex(b) =>
      if !MayMutex(s, b) || F.Next(s.f, b).None? then None
      else
        var s1 := s.(f := F.Next(s.f, b).value);
        (match Effect(s, b)
         case None => Some(s1)
         case Some(e) =>
           match C.Next(s.c, e)
           case None => Some(s1.(broken := true))
           case Some(c') => Some(s1.(c := c')))
    case InCond(b) =>
      if !MayCond(s, b) then None
      else (match C.Next(s.c, b) case None => None case Some(c') => Some(s.(c := c')))
  }

  function Init(threads: nat): State {
    State(F.Init(threads), C.Init(threads), false)
  }

  // ---- The invariant

  /** Where a thread can be in both at once. */
  predicate Fit(fp: F.Pc, cp: C.Pc) {
    match fp
    case Idle => !cp.ToUnlock?
    case Critical => cp.Out? || cp.ToUnlock? || cp.OneBumped? || cp.AllBumped?
    case ToStore => cp.Out? || cp.ToUnlock?
    case ToNotify => cp.Out? || cp.ToFutex?
    case _ => cp.Out? || cp.ToRelock?
  }

  /** The owner of the mutex is the holder of the lock that the condition variable was modelled with. */
  ghost predicate Agree(s: State) {
    && (forall t: nat :: t < |s.f.pc| ==> (F.Owns(s.f.pc[t]) <==> s.c.holder == Some(t)))
    && (s.c.holder.Some? ==> s.c.holder.value < |s.f.pc|)
  }

  ghost predicate Fits(s: State) {
    |s.f.pc| == |s.c.pc| && forall t: nat :: t < |s.f.pc| ==> Fit(s.f.pc[t], s.c.pc[t])
  }

  ghost predicate Inv(s: State) {
    F.Inv(s.f) && C.Basic(s.c) && Agree(s) && Fits(s) && !s.broken
  }

  /** A step of the mutex moves its own thread, and a sleeper of the mutex that it wakes. */
  lemma MutexFrame(f: F.State, b: F.Action, t: nat)
    requires F.Next(f, b).Some? && t < |f.pc|
    ensures var f' := F.Next(f, b).value;
      && |f'.pc| == |f.pc| && b.t < |f.pc|
      && (t != b.t && f'.pc[t] != f.pc[t] ==> f.pc[t].Parked? && f'.pc[t].ToLoad?)
  {}

  /** Where the step's own thread goes. */
  lemma MutexMoves(f: F.State, b: F.Action)
    requires F.Next(f, b).Some?
    ensures var f' := F.Next(f, b).value; var t := b.t;
      && t < |f.pc| == |f'.pc|
      && match f.pc[t]
         case Idle => b.Cas? && (f'.pc[t].Critical? || f'.pc[t].ToExchange? || f'.pc[t].ToLoad?)
         case Critical => b.FetchSub? && (f'.pc[t].Idle? || f'.pc[t].ToStore?)
         case ToStore => f'.pc[t].ToNotify?
         case ToNotify => f'.pc[t].Idle?
         case _ => !f'.pc[t].Idle? && !f'.pc[t].ToStore? && !f'.pc[t].ToNotify?
  {}

  /** A step of the condition variable moves its own thread, and sleepers that it wakes. */
  lemma CondFrame(c: C.State, a: C.Action, t: nat)
    requires C.Kernel(c) && C.Next(c, a).Some? && t < |c.pc|
    ensures var c' := C.Next(c, a).value;
      && |c'.pc| == |c.pc|
      && ((a.Spurious? || t != a.t) && c'.pc[t] != c.pc[t] ==> c.pc[t].Parked? && c'.pc[t].ToRelock?)
  {}

  /** What a step by its own thread, other than locking and unlocking, does to it. */
  lemma CondMoves(c: C.State, a: C.Action)
    requires C.Next(c, a).Some? && !a.Acquire? && !a.Release? && !a.Unlock? && !a.Relock? && !a.Spurious?
    ensures var c' := C.Next(c, a).value; var t := a.t;
      && t < |c.pc| == |c'.pc| && c'.holder == c.holder
      && match c.pc[t]
         case Out =>
           || (a.Read? && c.holder == Some(t) && c'.pc[t].ToUnlock?)
           || (a.BumpOne? && c'.pc[t].OneBumped?) || (a.BumpAll? && c'.pc[t].AllBumped?)
         case ToFutex(_, _) => a.Check? && (c'.pc[t].Checked? || c'.pc[t].ToRelock?)
         case Checked(_) => c'.pc[t].Parked?
         case OneBumped => c'.pc[t].Out?
         case AllBumped(_) => c'.pc[t].Out?
         case _ => false
  {}

  /** The mutex acquires only when nobody holds the lock, and releases only for its holder. */
  lemma EffectPossible(s: State, b: F.Action)
    requires Inv(s) && MayMutex(s, b) && F.Next(s.f, b).Some? && Effect(s, b).Some?
    ensures C.Next(s.c, Effect(s, b).value).Some?
  {
    var t, f' := b.t, F.Next(s.f, b).value;
    F.OwnershipStep(s.f, b);
    MutexMoves(s.f, b);
    assert Fit(s.f.pc[t], s.c.pc[t]);
    if !F.Owns(s.f.pc[t]) {
      assert s.f.flag == 0;
      assert F.OwnedBy(s.f, None);
      assert s.c.holder == None;
    }
    hide F.Next;
  }

  lemma EffectMoves(c: C.State, e: C.Action)
    requires C.Next(c, e).Some? && (e.Acquire? || e.Release? || e.Unlock? || e.Relock?)
    ensures var c' := C.Next(c, e).value;
      && e.t < |c.pc| && c'.pc == c.pc[e.t := c'.pc[e.t]]
      && c'.holder == (if e.Acquire? || e.Relock? then Some(e.t) else None)
      && (if e.Unlock? then c'.pc[e.t].ToFutex? else c'.pc[e.t].Out?)
  {
    assert c.pc[e.t := c.pc[e.t]] == c.pc;
  }

  lemma MutexKeepsAgree(s: State, b: F.Action)
    requires Inv(s) && Next(s, InMutex(b)).Some?
    ensures var s' := Next(s, InMutex(b)).value; Agree(s') && !s'.broken
  {
    F.OwnershipStep(s.f, b);
    if Effect(s, b).Some? {
      EffectPossible(s, b);
      EffectMoves(s.c, Effect(s, b).value);
    }
    hide F.Next, C.Next, F.Inv, C.Basic, F.Owns;
  }

  lemma MutexKeepsFits(s: State, b: F.Action)
    requires Inv(s) && Next(s, InMutex(b)).Some?
    ensures Fits(Next(s, InMutex(b)).value)
  {
    var s', t := Next(s, InMutex(b)).value, b.t;
    MutexMoves(s.f, b);
    assert Fit(s.f.pc[t], s.c.pc[t]);
    if Effect(s, b).Some? {
      EffectPossible(s, b);
      EffectMoves(s.c, Effect(s, b).value);
    }
    hide Agree;
    forall u: nat | u < |s.f.pc| ensures Fit(s'.f.pc[u], s'.c.pc[u]) {
      MutexFrame(s.f, b, u);
      assert Fit(s.f.pc[u], s.c.pc[u]);
    }
    hide F.Next, C.Next, F.Inv, C.Basic;
  }

  lemma MutexStep(s: State, b: F.Action)
    requires Inv(s) && Next(s, InMutex(b)).Some?
    ensures Inv(Next(s, InMutex(b)).value)
  {
    MutexKeepsAgree(s, b);
    MutexKeepsFits(s, b);
    F.InvStep(s.f, b);
    if Effect(s, b).Some? {
      EffectPossible(s, b);
      C.BasicStep(s.c, Effect(s, b).value);
    }
    hide F.Next, C.Next, F.Inv, C.Basic, Agree, Fits;
  }

  lemma CondStep(s: State, a: C.Action)
    requires Inv(s) && Next(s, InCond(a)).Some?
    ensures Inv(Next(s, InCond(a)).value)
  {
    var s' := Next(s, InCond(a)).value;
    C.BasicStep(s.c, a);
    if !a.Spurious? {
      CondMoves(s.c, a);
    }
    forall u: nat | u < |s.f.pc| ensures Fit(s'.f.pc[u], s'.c.pc[u]) {
      CondFrame(s.c, a, u);
      assert Fit(s.f.pc[u], s.c.pc[u]);
      if !a.Spurious? {
        assert Fit(s.f.pc[a.t], s.c.pc[a.t]);
      }
    }
    assert s'.c.holder == s.c.holder && |s'.c.pc| == |s.c.pc|;
    hide F.Next, C.Next, F.Inv, C.Basic;
  }

  lemma InvStep(s: State, a: Action)
    requires Inv(s) && Next(s, a).Some?
    ensures Inv(Next(s, a).value)
  {
    match a
    case InMutex(b) => MutexStep(s, b);
    case InCond(b) => CondStep(s, b);
  }

  // ---- What the condition variable sees

  /** The step of the condition variable, over its ideal lock, that a step of both amounts to. */
  function Seen(s: State, a: Action): seq<C.Action> {
    match a
    case InMutex(b) => (match Effect(s, b) case None => [] case Some(e) => [e])
    case InCond(b) => [b]
  }

  function SeenAll(s: State, acts: seq<Action>): seq<C.Action>
    decreases |acts|
  {
    if acts == [] || Next(s, acts[0]).None? then []
    else Seen(s, acts[0]) + SeenAll(Next(s, acts[0]).value, acts[1..])
  }

  lemma StepSeen(s: State, a: Action)
    requires Inv(s) && Next(s, a).Some?
    ensures Exec(C.Next, s.c, Seen(s, a)) == Some(Next(s, a).value.c)
  {
    if a.InMutex? && Effect(s, a.b).Some? {
      EffectPossible(s, a.b);
    }
    var acts := Seen(s, a);
    if acts != [] {
      First(C.Next, s.c, acts[0], []);
      assert acts == [acts[0]] + [];
    }
  }

  lemma {:induction false} RunSeen(s: State, acts: seq<Action>, s': State)
    requires Inv(s) && Exec(Next, s, acts) == Some(s')
    ensures Inv(s') && Exec(C.Next, s.c, SeenAll(s, acts)) == Some(s'.c)
    decreases |acts|
  {
    if acts != [] {
      StepSeen(s, acts[0]);
      InvStep(s, acts[0]);
      hide Next, Inv, Seen;
      var s1 := Next(s, acts[0]).value;
      RunSeen(s1, acts[1..], s');
      Split(C.Next, s.c, Seen(s, acts[0]), SeenAll(s1, acts[1..]));
    }
  }

  lemma InitInv(threads: nat)
    ensures Inv(Init(threads))
  {}

  /** The futex mutex and the futex condition variable are a monitor.  Every run of the two, by any
      number of threads, is to its clients a run of the monitor with the same locks, unlocks, waits,
      returns and notifications in the same order; the owner of the mutex is the monitor's holder;
      who waits in the monitor is inside Wait; and without 2^32 signals between a sample and its
      check, whoever has been notified in the monitor is awake or about to be woken. */
  lemma MutexAndCondVarAreAMonitor(threads: nat, acts: seq<Action>, s: State)
      returns (macts: seq<W.Action>, m: W.Monitor)
    requires Exec(Next, Init(threads), acts) == Some(s)
    ensures Exec(W.Next, W.Init, macts) == Some(m)
    ensures W.Labels(macts) == W.StepLabels(SeenAll(Init(threads), acts))
    ensures Inv(s) && W.Implements(s.c, m)
    ensures forall t: nat | t < |s.f.pc| :: F.Owns(s.f.pc[t]) <==> m.holder == Some(t)
    ensures W.NoWraps(C.Init(threads), SeenAll(Init(threads), acts)) ==> W.Joint(s.c, m)
  {
    InitInv(threads);
    hide Next, C.Next, W.Next, F.Inv, C.Basic, W.Joint;
    RunSeen(Init(threads), acts, s);
    macts, m := W.CondVarIsAMonitor(threads, SeenAll(Init(threads), acts), s.c);
  }

  // ---- Nobody is lost between the two

  /** Steps that need no new call of a client and no spurious wakeup. */
  predicate Inner(s: State, a: Action) {
    match a
    case InMutex(Cas(t)) => t < |s.c.pc| && s.c.pc[t].ToRelock?
    case InMutex(FetchSub(t)) => t < |s.c.pc| && s.c.pc[t].ToUnlock?
    case InMutex(Spurious(_)) => false
    case InMutex(_) => true
    case InCond(b) => !b.Read? && !b.BumpOne? && !b.BumpAll? && !b.Spurious?
  }

  ghost predicate Stuck(s: State) {
    forall a: Action :: Inner(s, a) ==> Next(s, a).None?
  }

  /** A client has locked the mutex and is free to unlock it when it likes. */
  predicate InClient(s: State, t: nat) {
    t < |s.f.pc| && t < |s.c.pc| && s.f.pc[t].Critical? && s.c.pc[t].Out?
  }

  lemma {:induction false} MutexReachable(s: State, acts: seq<Action>, s': State)
    requires F.Reachable(s.f) && Exec(Next, s, acts) == Some(s')
    ensures F.Reachable(s'.f)
    decreases |acts|
  {
    if acts != [] {
      var s1 := Next(s, acts[0]).value;
      MutexReachableStep(s, acts[0]);
      hide Next, F.Reachable;
      MutexReachable(s1, acts[1..], s');
    }
  }

  lemma MutexReachableStep(s: State, a: Action)
    requires F.Reachable(s.f) && Next(s, a).Some?
    ensures F.Reachable(Next(s, a).value.f)
  {
    if a.InMutex? {
      assert Next(s, a).value.f == F.Next(s.f, a.b).value;
      hide F.Next, F.Init, Next;
      var n: nat, before :| Exec(F.Next, F.Init(n), before) == Some(s.f);
      Extend(F.Next, F.Init(n), before, a.b);
      assert Exec(F.Next, F.Init(n), before + [a.b]) == F.Next(s.f, a.b);
    }
  }

  /** Outside, or asleep in the condition variable; and not in the mutex. */
  ghost predicate AtRest(s: State) {
    forall t: nat :: t < |s.f.pc| && t < |s.c.pc| ==>
      s.f.pc[t].Idle? && (s.c.pc[t].Out? || s.c.pc[t].Parked?)
  }

  /** Comparing, parking and waking are never held up for good. */
  lemma CondCanStep(s: State, t: nat) returns (a: Action)
    requires Inv(s) && t < |s.c.pc| && (s.f.pc[t].Idle? || s.f.pc[t].Critical?)
    requires s.c.pc[t].ToFutex? || s.c.pc[t].Checked? || s.c.pc[t].OneBumped? || s.c.pc[t].AllBumped?
    ensures Inner(s, a) && Next(s, a).Some?
  {
    if u: nat :| u < |s.c.pc| && s.c.pc[u].Checked? {
      a := InCond(C.Park(u));
      assert Fit(s.f.pc[u], s.c.pc[u]);
    } else {
      var b := match s.c.pc[t] case ToFutex(_, _) => C.Check(t) case OneBumped => C.WakeOne(t) case _ => C.WakeAll(t);
      a := InCond(b);
      assert C.KernelFree(s.c);
    }
  }

  /** A thread that is in the mutex, or goes back to it from the condition variable, or one that
      keeps it waiting, can step. */
  lemma MutexCanStep(s: State, t: nat) returns (a: Action)
    requires Inv(s) && F.Reachable(s.f) && (forall u :: !InClient(s, u)) && t < |s.f.pc| && !s.f.pc[t].Idle?
    ensures Inner(s, a) && Next(s, a).Some?
  {
    F.Progress(s.f);
    var b: F.Action :| !b.Cas? && !b.Spurious? && F.Next(s.f, b).Some?;
    MutexMoves(s.f, b);
    assert Fit(s.f.pc[b.t], s.c.pc[b.t]) && !InClient(s, b.t);
    if b.FetchSub? && !s.c.pc[b.t].ToUnlock? {
      a := CondCanStep(s, b.t);
    } else {
      a := InMutex(b);
      hide F.Next;
    }
  }

  lemma SomebodyCanStep(s: State) returns (a: Action)
    requires Inv(s) && F.Reachable(s.f) && (forall u :: !InClient(s, u)) && !AtRest(s)
    ensures Inner(s, a) && Next(s, a).Some?
  {
    if t: nat :| t < |s.f.pc| && !s.f.pc[t].Idle? {
      a := MutexCanStep(s, t);
    } else {
      var t: nat :| t < |s.c.pc| && !s.c.pc[t].Out? && !s.c.pc[t].Parked?;
      assert Fit(s.f.pc[t], s.c.pc[t]);
      if s.c.pc[t].ToRelock? {
        a := InMutex(F.Cas(t));
      } else {
        a := CondCanStep(s, t);
      }
    }
  }

  /** Deadlock freedom of the two together.  If no client holds the mutex and nothing inside can
      move, then every thread is outside or waits in the monitor, where nobody has notified it: no
      thread is stuck at the mutex, and no notification has been lost. */
  lemma NobodyIsLost(threads: nat, acts: seq<Action>, s: State) returns (macts: seq<W.Action>, m: W.Monitor)
    requires Exec(Next, Init(threads), acts) == Some(s) && W.NoWraps(C.Init(threads), SeenAll(Init(threads), acts))
    requires Stuck(s) && forall t :: !InClient(s, t)
    ensures Exec(W.Next, W.Init, macts) == Some(m)
    ensures W.Labels(macts) == W.StepLabels(SeenAll(Init(threads), acts))
    ensures m.holder == None && m.woken == {} && s.f.flag == 0 && |s.f.pc| == |s.c.pc|
    ensures forall t: nat | t < |s.c.pc| ::
      s.f.pc[t].Idle? && if t in m.waiting then s.c.pc[t].Parked? else s.c.pc[t].Out?
  {
    macts, m := MutexAndCondVarAreAMonitor(threads, acts, s);
    InitReachable(threads);
    MutexReachable(Init(threads), acts, s);
    hide Next, F.Inv, F.Reachable, C.Basic, W.Joint;
    if !AtRest(s) {
      var a := SomebodyCanStep(s);
      assert false;
    }
    F.NobodyIsLeftBehind(s.f);
    RestHasNoWoken(s, m);
  }

  lemma InitReachable(threads: nat)
    ensures F.Reachable(Init(threads).f)
  {
    Nothing(F.Next, F.Init(threads));
  }

  lemma RestHasNoWoken(s: State, m: W.Monitor)
    requires Inv(s) && AtRest(s) && W.Joint(s.c, m)
    ensures m.holder == None && m.woken == {}
    ensures forall t: nat | t < |s.c.pc| :: if t in m.waiting then s.c.pc[t].Parked? else s.c.pc[t].Out?
  {
    assert W.Notifiers(s.c) == {} && !W.WakesAll(s.c);
    if t :| t in m.woken {
      W.WokenIsAwake(s.c, m, t);
    }
  }
}
