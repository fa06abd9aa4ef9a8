/** solutions::BlockingQueue (tasks/condvar/semaphore/blocking_queue.hpp): a bounded queue for many
    producers and consumers, made of three semaphores and not a single condition.

    Threads run Put and Take one critical section at a time over the semaphores of module
    Semaphores, so blocking, notification, barging and spurious wakeups are all in the model. */
module BoundedQueue {
  import opened Runs
  import opened Counting
  import Semaphores

  type Sem = Semaphores.Sem
  type Value = int

  datatype Pc =
    | Idle
    | PutSlot(v: Value)   // Put: in is_full_.Acquire()
    | PutLock(v: Value)   // in mutex_.Acquire()
    | PutPush(v: Value)   // about to push
    | PutUnlock           // about to mutex_.Release()
    | PutSignal           // about to is_empty_.Release()
    | TakeItem            // Take: in is_empty_.Acquire()
    | TakeLock            // in mutex_.Acquire()
    | TakePop             // about to move front() out and pop
    | TakeUnlock(r: Value)
    | TakeReturn(r: Value) // about to is_full_.Release()

  datatype State = State(
    capacity: nat,
    full: Sem, mutex: Sem, empty: Sem,
    buffer: seq<Value>,
    pc: seq<Pc>,
    appended: seq<Value>,  // every value pushed so far, in order
    removed: seq<Value>,   // every value popped so far, in order
    frontOfEmpty: bool)    // front() was called on an empty buffer: undefined behaviour

  datatype Which = Full | Mutex | Empty

  datatype Action =
    | StartPut(t: nat, v: Value)
    | StartTake(t: nat)
    | Step(t: nat, w: nat)      // the next operation of t; w is whom a notify_one picks
    | Wakeup(which: Which, w: nat) // a spurious wakeup

  function Go(s: State, t: nat, pc: Pc): State
    requires t < |s.pc|
  {
    s.(pc := s.pc[t := pc])
  }

  /** t moves on to `entered` if the attempt got a permit, and stays (asleep) otherwise. */
  function AfterAcquire(s: State, t: nat, m: Sem, entered: Pc): State
    requires t < |s.pc|
  {
    if t in m.waiting then s else Go(s, t, entered)
  }

  function Operate(s: State, t: nat, w: nat): Option<State>
    requires t < |s.pc|
  {
    match s.pc[t]
    case Idle => None
    case PutSlot(v) =>
      (match Semaphores.Attempt(s.full, t)
       case None => None
       case Some(m) => Some(AfterAcquire(s.(full := m), t, m, PutLock(v))))
    case PutLock(v) =>
      (match Semaphores.Attempt(s.mutex, t)
       case None => None
       case Some(m) => Some(AfterAcquire(s.(mutex := m), t, m, PutPush(v))))
    case PutPush(v) =>
      Some(Go(s, t, PutUnlock).(buffer := s.buffer + [v], appended := s.appended + [v]))
    case PutUnlock =>
      (match Semaphores.Release(s.mutex, w)
       case None => None
       case Some(m) => Some(Go(s, t, PutSignal).(mutex := m)))
    case PutSignal =>
      (match Semaphores.Release(s.empty, w)
       case None => None
       case Some(m) => Some(Go(s, t, Idle).(empty := m)))
    case TakeItem =>
      (match Semaphores.Attempt(s.empty, t)
       case None => None
       case Some(m) => Some(AfterAcquire(s.(empty := m), t, m, TakeLock)))
    case TakeLock =>
      (match Semaphores.Attempt(s.mutex, t)
       case None => None
       case Some(m) => Some(AfterAcquire(s.(mutex := m), t, m, TakePop)))
    case TakePop =>
      if s.buffer == [] then Some(s.(frontOfEmpty := true))
      else Some(Go(s, t, TakeUnlock(s.buffer[0])).(buffer := s.buffer[1..], removed := s.removed + [s.buffer[0]]))
    case TakeUnlock(r) =>
      (match Semaphores.Release(s.mutex, w)
       case None => None
       case Some(m) => Some(Go(s, t, TakeReturn(r)).(mutex := m)))
    case TakeReturn(r) =>
      (match Semaphores.Release(s.full, w)
       case None => None
       case Some(m) => Some(Go(s, t, Idle).(full := m)))
  }

  function Next(s: State, a: Action): Option<State> {
    match a
    case StartPut(t, v) => if t < |s.pc| && s.pc[t] == Idle then Some(Go(s, t, PutSlot(v))) else None
    case StartTake(t) => if t < |s.pc| && s.pc[t] == Idle then Some(Go(s, t, TakeItem)) else None
    case Step(t, w) => if t < |s.pc| then Operate(s, t, w) else None
    case Wakeup(which, w) =>
      match which
      case Full => (match Semaphores.Spurious(s.full, w) case None => None case Some(m) => Some(s.(full := m)))
      case Mutex => (match Semaphores.Spurious(s.mutex, w) case None => None case Some(m) => Some(s.(mutex := m)))
      case Empty => (match Semaphores.Spurious(s.empty, w) case None => None case Some(m) => Some(s.(empty := m)))
  }

  function Init(capacity: nat, threads: nat): State {
    State(capacity, Semaphores.New(capacity), Semaphores.New(1), Semaphores.New(0),
          [], seq(threads, _ => Idle), [], [], false)
  }

  ghost predicate Reachable(s: State) {
    exists c: nat, n: nat, acts :: c < Semaphores.SIZE && Exec(Next, Init(c, n), acts) == Some(s)
  }

  // ---- The accounts

  predicate HoldsSlot(pc: Pc) { pc.PutLock? || pc.PutPush? }

  predicate OwesSignal(pc: Pc) { pc.PutUnlock? || pc.PutSignal? }

  predicate OwedItem(pc: Pc) { pc.TakeLock? || pc.TakePop? }

  predicate OwesSlot(pc: Pc) { pc.TakeUnlock? || pc.TakeReturn? }

  predicate HoldsMutex(pc: Pc) { pc.PutPush? || pc.PutUnlock? || pc.TakePop? || pc.TakeUnlock? }

  ghost predicate Accounts(s: State) {
    && s.full.counter + Count(s.pc, HoldsSlot) + |s.buffer| + Count(s.pc, OwesSlot) == s.capacity
    && s.empty.counter + Count(s.pc, OwedItem) + Count(s.pc, OwesSignal) == |s.buffer|
    && s.mutex.counter + Count(s.pc, HoldsMutex) == 1
    && s.capacity < Semaphores.SIZE
  }

  ghost predicate Fifo(s: State) {
    s.appended == s.removed + s.buffer && !s.frontOfEmpty
  }

  predicate InFull(pc: Pc) { pc.PutSlot? }

  predicate InMutex(pc: Pc) { pc.PutLock? || pc.TakeLock? }

  predicate InEmpty(pc: Pc) { pc.TakeItem? }

  /** Who sleeps in a semaphore, or has been woken there, is inside that semaphore's Acquire. */
  ghost predicate Inside(m: Sem, pcs: seq<Pc>, p: Pc -> bool) {
    forall t :: t in Semaphores.Members(m) ==> t < |pcs| && p(pcs[t])
  }

  ghost predicate Places(s: State) {
    Inside(s.full, s.pc, InFull) && Inside(s.mutex, s.pc, InMutex) && Inside(s.empty, s.pc, InEmpty)
  }

  ghost predicate Unstranded3(s: State) {
    Semaphores.Unstranded(s.full) && Semaphores.Unstranded(s.mutex) && Semaphores.Unstranded(s.empty)
  }

  ghost predicate Inv(s: State) {
    Accounts(s) && Fifo(s) && Places(s) && Unstranded3(s)
  }

  function One(b: bool): nat {
    if b then 1 else 0
  }

  /** How the five counts move when thread t goes to another program point. */
  lemma CountsMove(pcs: seq<Pc>, t: nat, pc: Pc)
    requires t < |pcs|
    ensures var n, was := pcs[t := pc], pcs[t];
      && Count(n, HoldsSlot) + One(HoldsSlot(was)) == Count(pcs, HoldsSlot) + One(HoldsSlot(pc))
      && Count(n, OwesSlot) + One(OwesSlot(was)) == Count(pcs, OwesSlot) + One(OwesSlot(pc))
      && Count(n, OwedItem) + One(OwedItem(was)) == Count(pcs, OwedItem) + One(OwedItem(pc))
      && Count(n, OwesSignal) + One(OwesSignal(was)) == Count(pcs, OwesSignal) + One(OwesSignal(pc))
      && Count(n, HoldsMutex) + One(HoldsMutex(was)) == Count(pcs, HoldsMutex) + One(HoldsMutex(pc))
  {
    CountUpdate(pcs, t, pc, HoldsSlot);
    CountUpdate(pcs, t, pc, OwesSlot);
    CountUpdate(pcs, t, pc, OwedItem);
    CountUpdate(pcs, t, pc, OwesSignal);
    CountUpdate(pcs, t, pc, HoldsMutex);
  }

  /** One operation of t moves only t, and moves the five quantities of the accounts together. */
  lemma OperateMoves(s: State, t: nat, w: nat)
    requires t < |s.pc| && Operate(s, t, w).Some?
    ensures var s' := Operate(s, t, w).value; var pc, pc' := s.pc[t], s'.pc[t];
      && |s'.pc| == |s.pc| && s'.pc == s.pc[t := pc'] && s'.capacity == s.capacity
  {}

  lemma AcquireAccounts(s: State, t: nat, w: nat)
    requires Accounts(s) && t < |s.pc| && Operate(s, t, w).Some?
    requires s.pc[t].PutSlot? || s.pc[t].TakeItem? || s.pc[t].PutLock? || s.pc[t].TakeLock?
    ensures Accounts(Operate(s, t, w).value)
  {
    var s' := Operate(s, t, w).value;
    OperateMoves(s, t, w);
    CountsMove(s.pc, t, s'.pc[t]);
  }

  lemma BufferAccounts(s: State, t: nat, w: nat)
    requires Accounts(s) && t < |s.pc| && Operate(s, t, w).Some?
    requires s.pc[t].PutPush? || s.pc[t].TakePop?
    ensures Accounts(Operate(s, t, w).value)
  {
    var s' := Operate(s, t, w).value;
    OperateMoves(s, t, w);
    CountsMove(s.pc, t, s'.pc[t]);
  }

  lemma ReleaseAccounts(s: State, t: nat, w: nat)
    requires Accounts(s) && t < |s.pc| && Operate(s, t, w).Some?
    requires OwesSignal(s.pc[t]) || OwesSlot(s.pc[t])
    ensures Accounts(Operate(s, t, w).value)
  {
    var s' := Operate(s, t, w).value;
    OperateMoves(s, t, w);
    CountsMove(s.pc, t, s'.pc[t]);
    var m, m' := if HoldsMutex(s.pc[t]) then 1 else 0, if HoldsMutex(s'.pc[t]) then 1 else 0;
    assert s'.buffer == s.buffer && s'.mutex.counter == s.mutex.counter + m - m';
    assert s'.full.counter == s.full.counter + (if s.pc[t].TakeReturn? then 1 else 0);
    assert s'.empty.counter == s.empty.counter + (if s.pc[t].PutSignal? then 1 else 0);
    hide Operate;
  }

  lemma AccountsStep(s: State, a: Action)
    requires Accounts(s) && Next(s, a).Some?
    ensures Accounts(Next(s, a).value)
  {
    match a
    case Step(t, w) =>
      match s.pc[t] {
        case PutSlot(_) => AcquireAccounts(s, t, w);
        case TakeItem => AcquireAccounts(s, t, w);
        case PutLock(_) => AcquireAccounts(s, t, w);
        case TakeLock => AcquireAccounts(s, t, w);
        case PutPush(_) => BufferAccounts(s, t, w);
        case TakePop => BufferAccounts(s, t, w);
        case _ => ReleaseAccounts(s, t, w);
      }
    case StartPut(t, v) => CountsMove(s.pc, t, PutSlot(v));
    case StartTake(t) => CountsMove(s.pc, t, TakeItem);
    case Wakeup(_, _) =>
  }

  lemma FifoStep(s: State, a: Action)
    requires Accounts(s) && Fifo(s) && Next(s, a).Some?
    ensures Fifo(Next(s, a).value)
  {
    if a.Step? && s.pc[a.t].TakePop? {
      CountNone(s.pc, OwedItem);
      assert OwedItem(s.pc[a.t]);
      assert s.removed + [s.buffer[0]] + s.buffer[1..] == s.removed + s.buffer;
    }
    if a.Step? && s.pc[a.t].PutPush? {
      var v := s.pc[a.t].v;
      assert s.removed + (s.buffer + [v]) == s.removed + s.buffer + [v];
    }
  }

  lemma SemaphoresStep(s: State, a: Action)
    requires Unstranded3(s) && Places(s) && Next(s, a).Some?
    ensures Unstranded3(Next(s, a).value)
  {
    hide Semaphores.Unstranded, Semaphores.Attempt, Semaphores.Release, Semaphores.Spurious;
    match a
    case Step(t, w) =>
      match s.pc[t] {
        case PutSlot(_) => Semaphores.AttemptKeeps(s.full, t);
        case PutLock(_) => Semaphores.AttemptKeeps(s.mutex, t);
        case TakeItem => Semaphores.AttemptKeeps(s.empty, t);
        case TakeLock => Semaphores.AttemptKeeps(s.mutex, t);
        case PutUnlock => Semaphores.ReleaseKeeps(s.mutex, w);
        case PutSignal => Semaphores.ReleaseKeeps(s.empty, w);
        case TakeUnlock(_) => Semaphores.ReleaseKeeps(s.mutex, w);
        case TakeReturn(_) => Semaphores.ReleaseKeeps(s.full, w);
        case _ =>
      }
    case Wakeup(which, w) =>
      match which {
        case Full => Semaphores.SpuriousKeeps(s.full, w);
        case Mutex => Semaphores.SpuriousKeeps(s.mutex, w);
        case Empty => Semaphores.SpuriousKeeps(s.empty, w);
      }
    case _ =>
  }

  /** A semaphore that thread t's operation does not touch, or that t enters or leaves. */
  lemma InsideMoves(m: Sem, m': Sem, pcs: seq<Pc>, t: nat, pc: Pc, p: Pc -> bool)
    requires Inside(m, pcs, p) && t < |pcs|
    requires Semaphores.Members(m') <= Semaphores.Members(m) + {t}
    requires t in Semaphores.Members(m') ==> p(pc)
    ensures Inside(m', pcs[t := pc], p)
  {}

  lemma AcquirePlaces(s: State, t: nat, w: nat)
    requires Places(s) && t < |s.pc| && Operate(s, t, w).Some?
    requires InFull(s.pc[t]) || InMutex(s.pc[t]) || InEmpty(s.pc[t])
    ensures Places(Operate(s, t, w).value)
  {
    var s' := Operate(s, t, w).value;
    if InFull(s.pc[t]) {
      Semaphores.AttemptMembers(s.full, t);
    } else if InMutex(s.pc[t]) {
      Semaphores.AttemptMembers(s.mutex, t);
    } else {
      Semaphores.AttemptMembers(s.empty, t);
    }
    MembersMove(s, t, s');
  }

  lemma ReleasePlaces(s: State, t: nat, w: nat)
    requires Places(s) && t < |s.pc| && Operate(s, t, w).Some?
    requires !(InFull(s.pc[t]) || InMutex(s.pc[t]) || InEmpty(s.pc[t]))
    ensures Places(Operate(s, t, w).value)
  {
    var s' := Operate(s, t, w).value;
    match s.pc[t] {
      case PutUnlock => Semaphores.ReleaseMembers(s.mutex, w);
      case PutSignal => Semaphores.ReleaseMembers(s.empty, w);
      case TakeUnlock(_) => Semaphores.ReleaseMembers(s.mutex, w);
      case TakeReturn(_) => Semaphores.ReleaseMembers(s.full, w);
      case _ =>
    }
    MembersMove(s, t, s');
  }

  lemma MembersMove(s: State, t: nat, s': State)
    requires Places(s) && t < |s.pc| == |s'.pc| && s'.pc == s.pc[t := s'.pc[t]]
    requires Semaphores.Members(s'.full) <= Semaphores.Members(s.full) + {t}
    requires Semaphores.Members(s'.mutex) <= Semaphores.Members(s.mutex) + {t}
    requires Semaphores.Members(s'.empty) <= Semaphores.Members(s.empty) + {t}
    requires t in Semaphores.Members(s'.full) ==> InFull(s'.pc[t])
    requires t in Semaphores.Members(s'.mutex) ==> InMutex(s'.pc[t])
    requires t in Semaphores.Members(s'.empty) ==> InEmpty(s'.pc[t])
    ensures Places(s')
  {
    InsideMoves(s.full, s'.full, s.pc, t, s'.pc[t], InFull);
    InsideMoves(s.mutex, s'.mutex, s.pc, t, s'.pc[t], InMutex);
    InsideMoves(s.empty, s'.empty, s.pc, t, s'.pc[t], InEmpty);
  }

  lemma PlacesStep(s: State, a: Action)
    requires Places(s) && Next(s, a).Some?
    ensures Places(Next(s, a).value)
  {
    match a
    case Step(t, w) =>
      if InFull(s.pc[t]) || InMutex(s.pc[t]) || InEmpty(s.pc[t]) {
        AcquirePlaces(s, t, w);
      } else {
        ReleasePlaces(s, t, w);
      }
    case StartPut(t, v) => MembersMove(s, t, Next(s, a).value);
    case StartTake(t) => MembersMove(s, t, Next(s, a).value);
    case Wakeup(which, w) =>
      match which {
        case Full => Semaphores.SpuriousMembers(s.full, w);
        case Mutex => Semaphores.SpuriousMembers(s.mutex, w);
        case Empty => Semaphores.SpuriousMembers(s.empty, w);
      }
  }

  lemma InvStep(s: State, a: Action)
    requires Inv(s) && Next(s, a).Some?
    ensures Inv(Next(s, a).value)
  {
    AccountsStep(s, a);
    FifoStep(s, a);
    PlacesStep(s, a);
    SemaphoresStep(s, a);
  }

  lemma InitInv(capacity: nat, threads: nat)
    requires capacity < Semaphores.SIZE
    ensures Inv(Init(capacity, threads))
  {
    var pc := Init(capacity, threads).pc;
    CountNone(pc, HoldsSlot);
    CountNone(pc, OwesSlot);
    CountNone(pc, OwedItem);
    CountNone(pc, OwesSignal);
    CountNone(pc, HoldsMutex);
  }

  lemma ReachableInv(s: State)
    requires Reachable(s)
    ensures Inv(s)
  {
    var c: nat, n: nat, acts :| c < Semaphores.SIZE && Exec(Next, Init(c, n), acts) == Some(s);
    InitInv(c, n);
    forall x, a | Inv(x) && Next(x, a).Some? ensures Inv(Next(x, a).value) {
      InvStep(x, a);
    }
    Invariant(Next, Inv, Init(c, n), acts);
  }

  /** Every slot and every item is accounted for, in every run: none is lost or made up. */
  lemma EverySlotIsAccountedFor(s: State)
    requires Reachable(s)
    ensures s.full.counter + Count(s.pc, HoldsSlot) + |s.buffer| + Count(s.pc, OwesSlot) == s.capacity
    ensures s.empty.counter + Count(s.pc, OwedItem) + Count(s.pc, OwesSignal) == |s.buffer|
    ensures |s.buffer| <= s.capacity
  {
    ReachableInv(s);
  }

  /** The values removed are a prefix of the values appended, in order and each once, and front()
      is never called on an empty buffer. */
  lemma FirstInFirstOut(s: State)
    requires Reachable(s)
    ensures s.removed <= s.appended && s.appended[|s.removed|..] == s.buffer
    ensures !s.frontOfEmpty
    ensures forall t :: 0 <= t < |s.pc| && s.pc[t].TakePop? ==> s.buffer != []
  {
    ReachableInv(s);
    CountNone(s.pc, OwedItem);
    forall t | 0 <= t < |s.pc| && s.pc[t].TakePop? ensures s.buffer != [] {
      assert OwedItem(s.pc[t]);
    }
  }

  /** The buffer is touched by one thread at a time. */
  lemma {:induction false} CountTwo(pcs: seq<Pc>, i: nat, j: nat)
    requires i < j < |pcs| && HoldsMutex(pcs[i]) && HoldsMutex(pcs[j])
    ensures Count(pcs, HoldsMutex) >= 2
  {
    CountUpdate(pcs, i, Idle, HoldsMutex);
    CountUpdate(pcs[i := Idle], j, Idle, HoldsMutex);
  }

  lemma BufferIsExclusive(s: State, i: nat, j: nat)
    requires Reachable(s) && i < j < |s.pc|
    ensures !(HoldsMutex(s.pc[i]) && HoldsMutex(s.pc[j]))
  {
    ReachableInv(s);
    if HoldsMutex(s.pc[i]) && HoldsMutex(s.pc[j]) {
      CountTwo(s.pc, i, j);
    }
  }

  // ---- Deadlock freedom

  ghost predicate Stuck(s: State) {
    forall t, w :: Next(s, Step(t, w)).None?
  }

  /** A thread inside Put or Take is stopped only by sleeping in a semaphore. */
  lemma OnlySleepersStop(s: State, t: nat)
    requires Stuck(s) && t < |s.pc| && s.pc[t] != Idle
    ensures s.pc[t].PutSlot? ==> t in s.full.waiting
    ensures s.pc[t].PutLock? || s.pc[t].TakeLock? ==> t in s.mutex.waiting
    ensures s.pc[t].TakeItem? ==> t in s.empty.waiting
    ensures s.pc[t].PutSlot? || s.pc[t].PutLock? || s.pc[t].TakeLock? || s.pc[t].TakeItem?
  {
    assert Next(s, Step(t, Pick(s.mutex))).None?;
    assert Next(s, Step(t, Pick(s.full))).None?;
    assert Next(s, Step(t, Pick(s.empty))).None?;
  }

  /** Some thread that sleeps in m, for notify_one to pick. */
  ghost function Pick(m: Sem): nat {
    if m.waiting == {} then 0 else var w :| w in m.waiting; w
  }

  /** Once stuck, nobody is between the semaphores, so nobody holds the mutex or waits for it. */
  lemma StuckThreadsWaitOutside(s: State)
    requires Inv(s) && Stuck(s)
    ensures forall t :: 0 <= t < |s.pc| && s.pc[t] != Idle ==>
      (s.pc[t].PutSlot? && t in s.full.waiting) || (s.pc[t].TakeItem? && t in s.empty.waiting)
    ensures s.full.woken == {} && s.empty.woken == {}
  {
    forall t: nat | t < |s.pc| && s.pc[t] != Idle
      ensures (s.pc[t].PutSlot? && t in s.full.waiting) || (s.pc[t].TakeItem? && t in s.empty.waiting)
    {
      OnlySleepersStop(s, t);
      NobodyHoldsMutex(s);
      WokenCanMove(s);
    }
    WokenCanMove(s);
  }

  lemma WokenCanMove(s: State)
    requires Inv(s) && Stuck(s)
    ensures s.full.woken == {} && s.mutex.woken == {} && s.empty.woken == {}
  {
    if u :| u in s.full.woken {
      assert u in Semaphores.Members(s.full);
      OnlySleepersStop(s, u);
    }
    if u :| u in s.mutex.woken {
      assert u in Semaphores.Members(s.mutex);
      OnlySleepersStop(s, u);
    }
    if u :| u in s.empty.woken {
      assert u in Semaphores.Members(s.empty);
      OnlySleepersStop(s, u);
    }
  }

  lemma NobodyHoldsMutex(s: State)
    requires Inv(s) && Stuck(s)
    ensures s.mutex.counter == 1
  {
    CountNone(s.pc, HoldsMutex);
    forall i: nat | i < |s.pc| ensures !HoldsMutex(s.pc[i]) {
      if s.pc[i] != Idle { OnlySleepersStop(s, i); }
    }
  }

  lemma StuckAccounts(s: State)
    requires Inv(s) && Stuck(s)
    ensures s.full.counter + |s.buffer| == s.capacity
    ensures s.empty.counter == |s.buffer|
  {
    StuckThreadsWaitOutside(s);
    assert Accounts(s);
    hide Inv, Stuck, Accounts;
    WaitingOwesNothing(s);
  }

  lemma WaitingOwesNothing(s: State)
    requires Accounts(s)
    requires forall t :: 0 <= t < |s.pc| && s.pc[t] != Idle ==> s.pc[t].PutSlot? || s.pc[t].TakeItem?
    ensures s.full.counter + |s.buffer| == s.capacity
    ensures s.empty.counter == |s.buffer|
  {
    CountNone(s.pc, HoldsSlot);
    CountNone(s.pc, OwesSlot);
    CountNone(s.pc, OwedItem);
    CountNone(s.pc, OwesSignal);
  }

  /** With room for at least one element, the queue blocks only as it should: if no thread inside
      Put or Take can move, they are all consumers before an empty buffer, or all producers
      before a full one. */
  lemma StuckOnlyWhenEmptyOrFull(s: State)
    requires Reachable(s) && s.capacity > 0 && Stuck(s)
    ensures || (forall t :: 0 <= t < |s.pc| ==> s.pc[t] == Idle || (s.pc[t].TakeItem? && s.buffer == []))
            || (forall t :: 0 <= t < |s.pc| ==> s.pc[t] == Idle || (s.pc[t].PutSlot? && |s.buffer| == s.capacity))
  {
    ReachableInv(s);
    StuckThreadsWaitOutside(s);
    StuckAccounts(s);
    hide Next, Stuck, Places, Accounts, Fifo;
    assert s.full.waiting != {} ==> s.full.counter == 0;
    assert s.empty.waiting != {} ==> s.empty.counter == 0;
  }

  // ---- The object

  // ---- Nobody waits without need

  /** Everybody is outside. */
  ghost predicate Quiescent(s: State) {
    forall t :: 0 <= t < |s.pc| ==> s.pc[t] == Idle
  }

  /** A semaphore in which nobody waits. */
  function Free(permits: nat): Sem {
    Semaphores.Sem(permits, {}, {})
  }

  lemma FreeAttempt(permits: nat, t: nat)
    requires permits > 0
    ensures Semaphores.Attempt(Free(permits), t) == Some(Free(permits - 1))
  {
    var none: set<nat> := {};
    assert none - {t} == none;
  }

  lemma QuiescentCounters(s: State)
    requires Inv(s) && Quiescent(s)
    ensures |s.buffer| <= s.capacity < Semaphores.SIZE
    ensures s.full == Free(s.capacity - |s.buffer|) && s.mutex == Free(1) && s.empty == Free(|s.buffer|)
  {
    WaitingOwesNothing(s);
    CountNone(s.pc, HoldsMutex);
    NobodyInside(s.full, s.pc, InFull);
    NobodyInside(s.mutex, s.pc, InMutex);
    NobodyInside(s.empty, s.pc, InEmpty);
  }

  lemma NobodyInside(m: Sem, pcs: seq<Pc>, p: Pc -> bool)
    requires Inside(m, pcs, p) && forall t :: 0 <= t < |pcs| ==> !p(pcs[t])
    ensures m.waiting == {} && m.woken == {}
  {
    forall t: nat ensures t !in m.waiting && t !in m.woken {
      assert t in m.waiting || t in m.woken ==> t in Semaphores.Members(m);
    }
  }

  function FiveSteps(t: nat): seq<Action> {
    [Step(t, 0)] + ([Step(t, 0)] + ([Step(t, 0)] + ([Step(t, 0)] + [Step(t, 0)])))
  }

  /** A Put that meets nobody and finds room runs through without waiting; its only effects are the
      value at the back of the buffer and the count of items and slots. */
  lemma PutRunsThrough(s: State, t: nat, v: Value)
    requires Reachable(s) && Quiescent(s) && t < |s.pc| && |s.buffer| < s.capacity
    ensures Exec(Next, s, [StartPut(t, v)] + FiveSteps(t)) == Some(s.(
      buffer := s.buffer + [v], appended := s.appended + [v],
      full := Free(s.capacity - |s.buffer| - 1), empty := Free(|s.buffer| + 1)))
  {
    ReachableInv(s);
    QuiescentCounters(s);
    hide Inv, Reachable, Quiescent;
    var s1 := Go(s, t, PutSlot(v));
    var s2 := Go(s1, t, PutLock(v)).(full := Free(s.capacity - |s.buffer| - 1));
    var s3 := Go(s2, t, PutPush(v)).(mutex := Free(0));
    var s4 := Go(s3, t, PutUnlock).(buffer := s.buffer + [v], appended := s.appended + [v]);
    var s5 := Go(s4, t, PutSignal).(mutex := Free(1));
    var s6 := Go(s5, t, Idle).(empty := Free(|s.buffer| + 1));
    assert Next(s3, Step(t, 0)) == Some(s4);
    assert s6.pc == s.pc;
    hide Next, Free;
    SlotStep(s1, t, s.capacity - |s.buffer|);
    LockStep(s2, t);
    UnlockStep(s4, t);
    SignalStep(s5, t, |s.buffer|);
    FiveRun(s1, s2, s3, s4, s5, s6, t);
    First(Next, s, StartPut(t, v), FiveSteps(t));
  }

  /** An Acquire that finds a free permit, and a Release, with nobody waiting. */
  lemma SlotStep(s: State, t: nat, n: nat)
    requires t < |s.pc| && s.pc[t].PutSlot? && n > 0 && s.full == Free(n)
    ensures Next(s, Step(t, 0)) == Some(Go(s, t, PutLock(s.pc[t].v)).(full := Free(n - 1)))
  {
    FreeAttempt(n, t);
  }

  lemma ItemStep(s: State, t: nat, n: nat)
    requires t < |s.pc| && s.pc[t].TakeItem? && n > 0 && s.empty == Free(n)
    ensures Next(s, Step(t, 0)) == Some(Go(s, t, TakeLock).(empty := Free(n - 1)))
  {
    FreeAttempt(n, t);
  }

  lemma LockStep(s: State, t: nat)
    requires t < |s.pc| && InMutex(s.pc[t]) && s.mutex == Free(1)
    ensures var inside := if s.pc[t].TakeLock? then TakePop else PutPush(s.pc[t].v);
      Next(s, Step(t, 0)) == Some(Go(s, t, inside).(mutex := Free(0)))
  {
    FreeAttempt(1, t);
  }

  lemma UnlockStep(s: State, t: nat)
    requires t < |s.pc| && (s.pc[t].PutUnlock? || s.pc[t].TakeUnlock?) && s.mutex == Free(0)
    ensures var last := if s.pc[t].PutUnlock? then PutSignal else TakeReturn(s.pc[t].r);
      Next(s, Step(t, 0)) == Some(Go(s, t, last).(mutex := Free(1)))
  {}

  lemma SignalStep(s: State, t: nat, n: nat)
    requires t < |s.pc| && s.pc[t].PutSignal? && n + 1 < Semaphores.SIZE && s.empty == Free(n)
    ensures Next(s, Step(t, 0)) == Some(Go(s, t, Idle).(empty := Free(n + 1)))
  {}

  lemma ReturnStep(s: State, t: nat, n: nat)
    requires t < |s.pc| && s.pc[t].TakeReturn? && n + 1 < Semaphores.SIZE && s.full == Free(n)
    ensures Next(s, Step(t, 0)) == Some(Go(s, t, Idle).(full := Free(n + 1)))
  {}

  /** And so does a Take that meets nobody and finds an item: it removes the front. */
  lemma TakeRunsThrough(s: State, t: nat)
    requires Reachable(s) && Quiescent(s) && t < |s.pc| && s.buffer != []
    ensures Exec(Next, s, [StartTake(t)] + FiveSteps(t)) == Some(s.(
      buffer := s.buffer[1..], removed := s.removed + [s.buffer[0]],
      full := Free(s.full.counter + 1), empty := Free(|s.buffer| - 1)))
  {
    ReachableInv(s);
    QuiescentCounters(s);
    var s1 := Go(s, t, TakeItem);
    assert s1.pc[t := Idle] == s.pc && Next(s, StartTake(t)) == Some(s1);
    hide Next, Inv, Reachable, Quiescent;
    TakeSteps(s1, t, s.full.counter);
    First(Next, s, StartTake(t), FiveSteps(t));
  }

  lemma PopStep(s: State, t: nat)
    requires t < |s.pc| && s.pc[t] == TakePop && s.buffer != []
    ensures Next(s, Step(t, 0)) == Some(Go(s, t, TakeUnlock(s.buffer[0])).(
      buffer := s.buffer[1..], removed := s.removed + [s.buffer[0]]))
  {}

  lemma TakeSteps(s1: State, t: nat, slots: nat)
    requires t < |s1.pc| && s1.pc[t] == TakeItem && s1.buffer != [] && slots + 1 < Semaphores.SIZE
    requires s1.full == Free(slots) && s1.mutex == Free(1) && s1.empty == Free(|s1.buffer|)
    ensures Exec(Next, s1, FiveSteps(t)) == Some(s1.(
      buffer := s1.buffer[1..], removed := s1.removed + [s1.buffer[0]], pc := s1.pc[t := Idle],
      full := Free(slots + 1), empty := Free(|s1.buffer| - 1)))
  {
    var r := s1.buffer[0];
    var s2 := Go(s1, t, TakeLock).(empty := Free(|s1.buffer| - 1));
    var s3 := Go(s2, t, TakePop).(mutex := Free(0));
    var s4 := Go(s3, t, TakeUnlock(r)).(buffer := s1.buffer[1..], removed := s1.removed + [r]);
    var s5 := Go(s4, t, TakeReturn(r)).(mutex := Free(1));
    var s6 := Go(s5, t, Idle).(full := Free(slots + 1));
    PopStep(s3, t);
    assert s6.pc == s1.pc[t := Idle];
    hide Next, Free;
    ItemStep(s1, t, |s1.buffer|);
    LockStep(s2, t);
    UnlockStep(s4, t);
    ReturnStep(s5, t, slots);
    FiveRun(s1, s2, s3, s4, s5, s6, t);
  }

  lemma FiveRun(s1: State, s2: State, s3: State, s4: State, s5: State, s6: State, t: nat)
    requires var a := Step(t, 0);
      && Next(s1, a) == Some(s2) && Next(s2, a) == Some(s3) && Next(s3, a) == Some(s4)
      && Next(s4, a) == Some(s5) && Next(s5, a) == Some(s6)
    ensures Exec(Next, s1, FiveSteps(t)) == Some(s6)
  {
    hide Next;
    var a := Step(t, 0);
    Nothing(Next, s6);
    First(Next, s5, a, []);
    assert [a] + [] == [a];
    First(Next, s4, a, [a]);
    First(Next, s3, a, [a] + [a]);
    First(Next, s2, a, [a] + ([a] + [a]));
    First(Next, s1, a, [a] + ([a] + ([a] + [a])));
  }

  /** A Put goes to sleep exactly if no slot is free when it asks for one, a Take exactly if no item
      is: it neither spins nor passes. */
  lemma WaitsExactlyWhenFullOrEmpty(s: State, t: nat)
    requires Reachable(s) && t < |s.pc| && t !in s.full.waiting && t !in s.empty.waiting
    ensures s.pc[t].PutSlot? ==> Next(s, Step(t, 0)).Some? && var s' := Next(s, Step(t, 0)).value;
      if s.full.counter == 0 then s'.pc == s.pc && t in s'.full.waiting
      else s'.pc == s.pc[t := PutLock(s.pc[t].v)] && s'.full.counter == s.full.counter - 1
    ensures s.pc[t].TakeItem? ==> Next(s, Step(t, 0)).Some? && var s' := Next(s, Step(t, 0)).value;
      if s.empty.counter == 0 then s'.pc == s.pc && t in s'.empty.waiting
      else s'.pc == s.pc[t := TakeLock] && s'.empty.counter == s.empty.counter - 1
  {
    ReachableInv(s);
  }

  /** Each method is one operation of thread t's Put or Take, in the order of the source. */
  class BlockingQueue {
    const capacity: nat
    const isFull: Semaphores.Semaphore
    const mutex: Semaphores.Semaphore
    const isEmpty: Semaphores.Semaphore
    var buffer: seq<Value>
    ghost var pc: seq<Pc>
    ghost var appended: seq<Value>
    ghost var removed: seq<Value>

    ghost predicate Valid() {
      isFull != mutex && isFull != isEmpty && mutex != isEmpty
    }

    ghost function View(): State
      reads this, isFull, mutex, isEmpty
    {
      State(capacity, isFull.View(), mutex.View(), isEmpty.View(), buffer, pc, appended, removed, false)
    }

    constructor (capacity: nat, ghost threads: nat)
      requires capacity < Semaphores.SIZE
      ensures Valid() && View() == Init(capacity, threads)
      ensures fresh(isFull) && fresh(mutex) && fresh(isEmpty)
    {
      this.capacity := capacity;
      isFull := new Semaphores.Semaphore(capacity);
      mutex := new Semaphores.Semaphore(1);
      isEmpty := new Semaphores.Semaphore(0);
      buffer, appended, removed := [], [], [];
      pc := seq(threads, _ => Idle);
    }

    method PutAcquireSlot(ghost t: nat)
      requires Valid() && t < |pc| && pc[t].PutSlot? && Next(View(), Step(t, 0)).Some?
      modifies this`pc, isFull
      ensures Some(View()) == Next(old(View()), Step(t, 0))
    {
      var acquired := isFull.TryAcquire(t);
      if acquired {
        pc := pc[t := PutLock(pc[t].v)];
      }
    }

    method PutAcquireMutex(ghost t: nat)
      requires Valid() && t < |pc| && pc[t].PutLock? && Next(View(), Step(t, 0)).Some?
      modifies this`pc, mutex
      ensures Some(View()) == Next(old(View()), Step(t, 0))
    {
      var acquired := mutex.TryAcquire(t);
      if acquired {
        pc := pc[t := PutPush(pc[t].v)];
      }
    }

    method PutAppend(ghost t: nat, value: Value)
      requires Valid() && t < |pc| && pc[t] == PutPush(value)
      modifies this
      ensures Some(View()) == Next(old(View()), Step(t, 0))
    {
      buffer := buffer + [value];
      appended := appended + [value];
      pc := pc[t := PutUnlock];
    }

    method PutReleaseMutex(ghost t: nat, ghost w: nat)
      requires Valid() && t < |pc| && pc[t].PutUnlock? && Next(View(), Step(t, w)).Some?
      modifies this`pc, mutex
      ensures Some(View()) == Next(old(View()), Step(t, w))
    {
      mutex.ReleaseOne(w);
      pc := pc[t := PutSignal];
    }

    method PutSignalItem(ghost t: nat, ghost w: nat)
      requires Valid() && t < |pc| && pc[t].PutSignal? && Next(View(), Step(t, w)).Some?
      modifies this`pc, isEmpty
      ensures Some(View()) == Next(old(View()), Step(t, w))
    {
      isEmpty.ReleaseOne(w);
      pc := pc[t := Idle];
    }

    method TakeAcquireItem(ghost t: nat)
      requires Valid() && t < |pc| && pc[t].TakeItem? && Next(View(), Step(t, 0)).Some?
      modifies this`pc, isEmpty
      ensures Some(View()) == Next(old(View()), Step(t, 0))
    {
      var acquired := isEmpty.TryAcquire(t);
      if acquired {
        pc := pc[t := TakeLock];
      }
    }

    method TakeAcquireMutex(ghost t: nat)
      requires Valid() && t < |pc| && pc[t].TakeLock? && Next(View(), Step(t, 0)).Some?
      modifies this`pc, mutex
      ensures Some(View()) == Next(old(View()), Step(t, 0))
    {
      var acquired := mutex.TryAcquire(t);
      if acquired {
        pc := pc[t := TakePop];
      }
    }

    /** In reachable states FirstInFirstOut says that the buffer is not empty here. */
    method TakeFront(ghost t: nat) returns (result: Value)
      requires Valid() && t < |pc| && pc[t].TakePop? && Reachable(View())
      modifies this
      ensures Some(View()) == Next(old(View()), Step(t, 0))
      ensures old(buffer) == [result] + buffer
    {
      FirstInFirstOut(View());
      result := buffer[0];
      buffer := buffer[1..];
      removed := removed + [result];
      pc := pc[t := TakeUnlock(result)];
    }

    method TakeReleaseMutex(ghost t: nat, ghost w: nat)
      requires Valid() && t < |pc| && pc[t].TakeUnlock? && Next(View(), Step(t, w)).Some?
      modifies this`pc, mutex
      ensures Some(View()) == Next(old(View()), Step(t, w))
    {
      mutex.ReleaseOne(w);
      pc := pc[t := TakeReturn(pc[t].r)];
    }

    method TakeReturnSlot(ghost t: nat, ghost w: nat, result: Value) returns (r: Value)
      requires Valid() && t < |pc| && pc[t] == TakeReturn(result) && Next(View(), Step(t, w)).Some?
      modifies this`pc, isFull
      ensures Some(View()) == Next(old(View()), Step(t, w))
      ensures r == result
    {
      isFull.ReleaseOne(w);
      pc := pc[t := Idle];
      r := result;
    }
  }
}
