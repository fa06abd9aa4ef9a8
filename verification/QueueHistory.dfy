/** What clients of the bounded queue see (tasks/condvar/semaphore/blocking_queue.hpp): the history
    of their Put and Take calls, each of which is five or more critical sections of three semaphores,
    interleaved with everybody else's. */
module QueueHistory {
  import opened Runs
  import opened Calls
  import opened Counting
  import B = BoundedQueue

  datatype Op = PutOp(v: B.Value) | TakeOp

  datatype Result = Void | Item(v: B.Value)

  datatype State = State(q: B.State, book: Book<Op, Result>)

  /** A call begins with its first Acquire, takes effect where it changes the buffer, and returns
      after its last Release. */
  function Record(s: State, a: B.Action): Option<Book<Op, Result>> {
    match a
    case StartPut(t, v) => if IsOutside(s.book, t) then Some(DoBegin(s.book, t, PutOp(v))) else None
    case StartTake(t) => if IsOutside(s.book, t) then Some(DoBegin(s.book, t, TakeOp)) else None
    case Wakeup(_, _) => Some(s.book)
    case Step(t, _) =>
      if t >= |s.q.pc| then None
      else match s.q.pc[t]
        case PutPush(_) => if IsBefore(s.book, t) then Some(DoEffect(s.book, t, Void)) else None
        case TakePop =>
          if IsBefore(s.book, t) && s.q.buffer != [] then Some(DoEffect(s.book, t, Item(s.q.buffer[0]))) else None
        case PutSignal => if IsAfter(s.book, t) then Some(DoReturn(s.book, t)) else None
        case TakeReturn(_) => if IsAfter(s.book, t) then Some(DoReturn(s.book, t)) else None
        case _ => Some(s.book)
  }

  function Next(s: State, a: B.Action): Option<State> {
    match B.Next(s.q, a)
    case None => None
    case Some(q) => (match Record(s, a) case None => None case Some(book) => Some(State(q, book)))
  }

  function Init(capacity: nat, threads: nat): State {
    State(B.Init(capacity, threads), Open(threads))
  }

  ghost predicate Reachable(s: State) {
    exists c: nat, n: nat, acts :: c < B.Semaphores.SIZE && Exec(Next, Init(c, n), acts) == Some(s)
  }

  /** The sequential object: a first-in first-out queue of bounded length; Put waits for room, Take
      for an item. */
  function Apply(capacity: nat): (seq<B.Value>, Op) -> Option<(seq<B.Value>, Result)> {
    (items: seq<B.Value>, op: Op) =>
      match op
      case PutOp(v) => if |items| < capacity then Some((items + [v], Void)) else None
      case TakeOp => if items != [] then Some((items[1..], Item(items[0]))) else None
  }

  // ---- The invariant

  /** Where a thread is in the code, and where its call is. */
  predicate Fit(pc: B.Pc, place: Place<Op, Result>) {
    match pc
    case Idle => place.Outside?
    case PutSlot(v) => place.Before? && place.op == PutOp(v)
    case PutLock(v) => place.Before? && place.op == PutOp(v)
    case PutPush(v) => place.Before? && place.op == PutOp(v)
    case TakeItem => place.Before? && place.op == TakeOp
    case TakeLock => place.Before? && place.op == TakeOp
    case TakePop => place.Before? && place.op == TakeOp
    case TakeUnlock(r) => place.After? && place.res == Item(r)
    case TakeReturn(r) => place.After? && place.res == Item(r)
    case _ => place.After? && place.res == Void
  }

  ghost predicate Fits(s: State) {
    |s.q.pc| == |s.book.places| && forall t: nat :: t < |s.q.pc| ==> Fit(s.q.pc[t], s.book.places[t])
  }

  ghost predicate Inv(s: State) {
    B.Inv(s.q) && Fits(s) && Kept(s.book) && Legal(Apply(s.q.capacity), [], s.book, s.q.buffer)
  }

  /** There is room when a Put appends, and an item when a Take pops. */
  lemma RoomAndItem(q: B.State, t: nat)
    requires B.Inv(q) && t < |q.pc|
    ensures q.pc[t].PutPush? ==> |q.buffer| < q.capacity
    ensures q.pc[t].TakePop? ==> q.buffer != []
  {
    CountNone(q.pc, B.HoldsSlot);
    CountNone(q.pc, B.OwedItem);
  }

  /** What a step does to the program points and to the buffer. */
  lemma QueueMoves(q: B.State, a: B.Action)
    requires B.Next(q, a).Some?
    ensures var q' := B.Next(q, a).value;
      && |q'.pc| == |q.pc| && q'.capacity == q.capacity
      && (a.Wakeup? ==> q'.pc == q.pc && q'.buffer == q.buffer)
      && (!a.Wakeup? ==> a.t < |q.pc| && q'.pc == q.pc[a.t := q'.pc[a.t]])
      && (!a.Step? ==> q'.buffer == q.buffer)
      && (a.Step? && !q.pc[a.t].PutPush? && !q.pc[a.t].TakePop? ==> q'.buffer == q.buffer)
  {}

  /** Where an operation leads its thread. */
  predicate MovesTo(q: B.State, t: nat, pc: B.Pc)
    requires t < |q.pc|
  {
    match q.pc[t]
    case Idle => false
    case PutSlot(v) => pc == q.pc[t] || pc == B.PutLock(v)
    case PutLock(v) => pc == q.pc[t] || pc == B.PutPush(v)
    case PutPush(_) => pc.PutUnlock?
    case PutUnlock => pc.PutSignal?
    case PutSignal => pc.Idle?
    case TakeItem => pc.TakeItem? || pc.TakeLock?
    case TakeLock => pc.TakeLock? || pc.TakePop?
    case TakePop => q.buffer != [] ==> pc == B.TakeUnlock(q.buffer[0])
    case TakeUnlock(r) => pc == B.TakeReturn(r)
    case TakeReturn(_) => pc.Idle?
  }

  lemma StepMoves(q: B.State, t: nat, w: nat)
    requires B.Next(q, B.Step(t, w)).Some?
    ensures var q' := B.Next(q, B.Step(t, w)).value;
      && t < |q.pc| == |q'.pc| && MovesTo(q, t, q'.pc[t])
      && (q.pc[t].PutPush? ==> q'.buffer == q.buffer + [q.pc[t].v])
      && (q.pc[t].TakePop? && q.buffer != [] ==> q.buffer == [q.buffer[0]] + q'.buffer)
  {}

  lemma StepFits(s: State, t: nat, w: nat, pc: B.Pc)
    requires Fits(s) && t < |s.q.pc| && MovesTo(s.q, t, pc) && (s.q.pc[t].TakePop? ==> s.q.buffer != [])
    ensures var r := Record(s, B.Step(t, w));
      && r.Some? && |r.value.places| == |s.q.pc|
      && r.value.places == s.book.places[t := r.value.places[t]] && Fit(pc, r.value.places[t])
  {
    assert Fit(s.q.pc[t], s.book.places[t]);
    assert s.book.places == s.book.places[t := s.book.places[t]];
  }

  /** Recording never stands in the way of a step of the queue. */
  lemma Recorded(s: State, a: B.Action)
    requires B.Inv(s.q) && Fits(s) && B.Next(s.q, a).Some?
    ensures Next(s, a).Some? && Record(s, a).Some?
    ensures Next(s, a) == Some(State(B.Next(s.q, a).value, Record(s, a).value)) && Fits(Next(s, a).value)
  {
    var q' := B.Next(s.q, a).value;
    QueueMoves(s.q, a);
    if a.Step? {
      StepMoves(s.q, a.t, a.w);
      RoomAndItem(s.q, a.t);
      hide Record, Fit, MovesTo;
      StepFits(s, a.t, a.w, q'.pc[a.t]);
    } else if !a.Wakeup? {
      assert Fit(s.q.pc[a.t], s.book.places[a.t]);
    }
    hide B.Inv, B.Operate;
  }

  lemma RecordKeeps(s: State, a: B.Action)
    requires Kept(s.book) && Record(s, a).Some?
    ensures Kept(Record(s, a).value)
  {
    match a
    case StartPut(t, v) => BeginKeeps(s.book, t, PutOp(v));
    case StartTake(t) => BeginKeeps(s.book, t, TakeOp);
    case Wakeup(_, _) =>
    case Step(t, _) =>
      match s.q.pc[t] {
        case PutPush(_) => EffectKeeps(s.book, t, Void);
        case TakePop => EffectKeeps(s.book, t, Item(s.q.buffer[0]));
        case PutSignal => ReturnKeeps(s.book, t);
        case TakeReturn(_) => ReturnKeeps(s.book, t);
        case _ =>
      }
  }

  lemma StepLegal(s: State, t: nat, w: nat)
    requires Inv(s) && Next(s, B.Step(t, w)).Some?
    ensures var s' := Next(s, B.Step(t, w)).value; Legal(Apply(s.q.capacity), [], s'.book, s'.q.buffer)
  {
    var s', cap := Next(s, B.Step(t, w)).value, s.q.capacity;
    StepMoves(s.q, t, w);
    QueueMoves(s.q, B.Step(t, w));
    RoomAndItem(s.q, t);
    assert Fit(s.q.pc[t], s.book.places[t]);
    hide B.Next, B.Inv, Kept, Legal;
    match s.q.pc[t]
    case PutPush(_) => EffectStaysLegal(Apply(cap), [], s.book, s.q.buffer, t, Void, s'.q.buffer);
    case TakePop =>
      EffectStaysLegal(Apply(cap), [], s.book, s.q.buffer, t, Item(s.q.buffer[0]), s'.q.buffer);
    case PutSignal => ReturnStaysLegal(s, t);
    case TakeReturn(_) => ReturnStaysLegal(s, t);
    case _ =>
  }

  lemma ReturnStaysLegal(s: State, t: nat)
    requires IsAfter(s.book, t) && Legal(Apply(s.q.capacity), [], s.book, s.q.buffer)
    ensures Legal(Apply(s.q.capacity), [], DoReturn(s.book, t), s.q.buffer)
  {
    var e := Return(s.book.places[t].call, s.book.places[t].res);
    NoEffectStaysLegal(Apply(s.q.capacity), [], s.book, s.q.buffer, e);
  }

  lemma LegalStep(s: State, a: B.Action)
    requires Inv(s) && Next(s, a).Some?
    ensures var s' := Next(s, a).value; Legal(Apply(s.q.capacity), [], s'.book, s'.q.buffer)
  {
    QueueMoves(s.q, a);
    match a
    case Step(t, w) => StepLegal(s, t, w);
    case StartPut(t, v) => NoEffectStaysLegal(Apply(s.q.capacity), [], s.book, s.q.buffer, Begin(t, PutOp(v)));
    case StartTake(t) => NoEffectStaysLegal(Apply(s.q.capacity), [], s.book, s.q.buffer, Begin(t, TakeOp));
    case Wakeup(_, _) =>
  }

  lemma InvStep(s: State, a: B.Action)
    requires Inv(s) && Next(s, a).Some?
    ensures Inv(Next(s, a).value)
  {
    LegalStep(s, a);
    QueueMoves(s.q, a);
    RecordKeeps(s, a);
    B.InvStep(s.q, a);
    Recorded(s, a);
    hide B.Next, B.Inv, Record, Kept, Legal, Fits;
  }

  lemma InitInv(c: nat, n: nat)
    requires c < B.Semaphores.SIZE
    ensures Inv(Init(c, n))
  {
    B.InitInv(c, n);
    OpenIsKept<Op, Result>(n);
  }

  lemma ReachableInv(s: State)
    requires Reachable(s)
    ensures Inv(s)
  {
    var c: nat, n: nat, acts :| c < B.Semaphores.SIZE && Exec(Next, Init(c, n), acts) == Some(s);
    InitInv(c, n);
    forall x, a | Inv(x) && Next(x, a).Some? ensures Inv(Next(x, a).value) {
      InvStep(x, a);
    }
    hide Inv, Next;
    Invariant(Next, Inv, Init(c, n), acts);
  }

  // ---- What the queue promises

  /** Every run of the queue has a history: the record follows it step by step. */
  lemma {:induction false} EveryRunIsRecorded(s: State, acts: seq<B.Action>, q: B.State) returns (s': State)
    requires Inv(s) && Exec(B.Next, s.q, acts) == Some(q)
    ensures Exec(Next, s, acts) == Some(s') && s'.q == q
    decreases |acts|
  {
    if acts == [] {
      s' := s;
    } else {
      Recorded(s, acts[0]);
      InvStep(s, acts[0]);
      hide Inv, B.Next, Record, Fits;
      s' := EveryRunIsRecorded(Next(s, acts[0]).value, acts[1..], q);
    }
  }

  /** Linearizability.  In every reachable state the Puts and Takes that took effect, in the order in
      which they did, are a history of the bounded sequential queue, which now holds the buffer;
      every call took effect at most once, after its beginning; every returned call before its
      return, a Take with the value it returns; and a call waiting for a slot, an item or the mutex
      has changed nothing. */
  lemma Linearizable(s: State)
    requires Reachable(s)
    ensures Replay(Apply(s.q.capacity), [], Effects(s.book.trace)) == Some(s.q.buffer)
    ensures EffectsOnce(s.book.trace) && ReturnsOnce(s.book.trace)
    ensures forall t: nat | t < |s.q.pc| && (B.InFull(s.q.pc[t]) || B.InMutex(s.q.pc[t]) || B.InEmpty(s.q.pc[t])) ::
      NoEffectYet(s.book, t)
    ensures forall t: nat | t < |s.q.pc| && s.q.pc[t].TakeReturn? ::
      IsAfter(s.book, t) && s.book.places[t].res == Item(s.q.pc[t].r)
  {
    ReachableInv(s);
    hide B.Inv, Reachable, EffectsOnce, ReturnsOnce;
    forall t: nat | t < |s.q.pc| && (B.InFull(s.q.pc[t]) || B.InMutex(s.q.pc[t]) || B.InEmpty(s.q.pc[t]))
      ensures NoEffectYet(s.book, t)
    {
      WaiterHasNoEffect(s, t);
    }
    forall t: nat | t < |s.q.pc| && s.q.pc[t].TakeReturn?
      ensures IsAfter(s.book, t) && s.book.places[t].res == Item(s.q.pc[t].r)
    {
      assert Fit(s.q.pc[t], s.book.places[t]);
    }
  }

  lemma WaiterHasNoEffect(s: State, t: nat)
    requires Fits(s) && Kept(s.book) && t < |s.q.pc|
    requires B.InFull(s.q.pc[t]) || B.InMutex(s.q.pc[t]) || B.InEmpty(s.q.pc[t])
    ensures NoEffectYet(s.book, t)
  {
    assert Fit(s.q.pc[t], s.book.places[t]);
    assert PlaceOk(s.book, t);
  }
}
