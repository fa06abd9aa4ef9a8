/** tp::StaticThreadPool (tasks/condvar/thread-pool/tp/static_thread_pool.cpp): workers over the
    closeable queue, and a counter of planned work on which Join waits.

    Tasks may submit tasks: a task is the tree of what it will submit, in order.  Every atomic
    operation on the counter, every critical section of the queue and every kernel operation on
    the counter's futex is a step of its own; any number of outside threads submit, one thread
    calls Join or Shutdown. */
module ThreadPool {
  import opened Runs
  import opened Counting
  import Q = CloseableQueue

  const WORD := 0x1_0000_0000 // planned_work_counter_ is a uint32_t

  datatype Task = Task(id: nat, children: seq<Task>)

  /** A task and all it submits, directly or not. */
  function Nodes(t: Task): multiset<Task> {
    multiset{t} + NodesOf(t.children)
  }

  function NodesOf(ts: seq<Task>): multiset<Task> {
    if ts == [] then multiset{} else Nodes(ts[0]) + NodesOf(ts[1..])
  }

  datatype Worker =
    | Taking                                              // in tasks_.Take()
    | Running(task: Task, rest: seq<Task>)                // executing; rest is still to be submitted
    | Putting(task: Task, child: Task, rest: seq<Task>)   // inside Submit(child), counter already raised
    | ToDecrement
    | ToNotify
    | Exited

  datatype Client = Outside | Submitting(task: Task)

  datatype Joiner =
    | NotCalled
    | Loading    // Join: about to load the counter
    | ToFutex    // loaded a non-zero value, about to FutexWait(0)
    | Checked    // kernel lock held, counter compared equal to 0, not yet parked
    | Parked
    | ToClose    // loaded zero, about to close the queue
    | Joining    // waiting for the workers to exit
    | Returned
    | ShutJoining | ShutStoring | ShutReturned

  datatype State = State(
    q: Q.Queue<Task>,
    word: nat,                  // the counter
    workers: seq<Worker>, clients: seq<Client>, joiner: Joiner,
    count: nat,                 // the counter without wrap-around
    submitted: multiset<Task>,  // all tasks submitted from outside, with everything they submit
    ran: multiset<Task>,        // tasks executed to their end
    rejected: seq<Task>,        // tasks whose Put came after the closing
    dropped: seq<Task>,         // tasks thrown away by Shutdown
    late: bool,                 // a Submit began after Join had seen the counter at zero
    falseZero: bool)            // Join saw zero although work was outstanding

  datatype Action =
    | Submit(c: nat, task: Task) | SubmitPut(c: nat, w: nat)
    | TakeTask(i: nat) | SubmitChild(i: nat) | ChildPut(i: nat, w: nat) | Finish(i: nat)
    | Decrement(i: nat) | Notify(i: nat)
    | JoinCall | Load | Check | Park | JoinSpurious | JoinClose | JoinDone
    | ShutCall | ShutDone | ShutStore
    | Wakeup(w: nat)

  function Raise(s: State): State {
    s.(word := (s.word + 1) % WORD, count := s.count + 1)
  }

  function SetWorker(s: State, i: nat, w: Worker): State
    requires i < |s.workers|
  {
    s.(workers := s.workers[i := w])
  }

  function PutTask(s: State, t: Task, w: nat): Option<State> {
    match Q.Put(s.q, t, w)
    case None => None
    case Some(q) => Some(s.(q := q, rejected := if s.q.closed then s.rejected + [t] else s.rejected))
  }

  predicate AllExited(s: State) {
    forall i :: 0 <= i < |s.workers| ==> s.workers[i] == Exited
  }

  function WorkerNext(s: State, i: nat, a: Action): Option<State>
    requires i < |s.workers|
  {
    match s.workers[i]
    case Taking =>
      if !a.TakeTask? then None
      else (match Q.Take(s.q, i)
            case None => None
            case Some(q) =>
              match Q.TakeOutcome(s.q)
              case Asleep => Some(s.(q := q))
              case Nothing => Some(SetWorker(s, i, Exited).(q := q))
              case Got(task) => Some(SetWorker(s, i, Running(task, task.children)).(q := q)))
    case Running(task, rest) =>
      if rest != [] then
        if !a.SubmitChild? then None else Some(Raise(SetWorker(s, i, Putting(task, rest[0], rest[1..]))))
      else
        if !a.Finish? then None else Some(SetWorker(s, i, ToDecrement).(ran := s.ran + multiset{task}))
    case Putting(task, child, rest) =>
      if !a.ChildPut? then None else PutTask(SetWorker(s, i, Running(task, rest)), child, a.w)
    case ToDecrement =>
      if !a.Decrement? then None
      else
        var word := (s.word + WORD - 1) % WORD;
        Some(SetWorker(s, i, if word == 0 then ToNotify else Taking)
             .(word := word, count := if s.count > 0 then s.count - 1 else 0))
    case ToNotify =>
      if !a.Notify? || s.joiner == Checked then None
      else Some(SetWorker(s, i, Taking).(joiner := if s.joiner == Parked then Loading else s.joiner))
    case Exited => None
  }

  function JoinerNext(s: State, a: Action): Option<State> {
    match a
    case JoinCall => if s.joiner == NotCalled then Some(s.(joiner := Loading)) else None
    case Load =>
      if s.joiner != Loading then None
      else if s.word != 0 then Some(s.(joiner := ToFutex))
      else Some(s.(joiner := ToClose, falseZero := s.falseZero || s.count != 0))
    case Check =>
      if s.joiner != ToFutex then None
      else Some(s.(joiner := if s.word == 0 then Checked else Loading))
    case Park => if s.joiner == Checked then Some(s.(joiner := Parked)) else None
    case JoinSpurious => if s.joiner == Parked then Some(s.(joiner := Loading)) else None
    case JoinClose => if s.joiner == ToClose then Some(s.(joiner := Joining, q := Q.Close(s.q, false))) else None
    case JoinDone => if s.joiner == Joining && AllExited(s) then Some(s.(joiner := Returned)) else None
    case ShutCall =>
      if s.joiner != NotCalled then None
      else Some(s.(joiner := ShutJoining, q := Q.Close(s.q, true), dropped := s.dropped + s.q.items))
    case ShutDone => if s.joiner == ShutJoining && AllExited(s) then Some(s.(joiner := ShutStoring)) else None
    case ShutStore => if s.joiner == ShutStoring then Some(s.(joiner := ShutReturned, word := 0, count := 0)) else None
    case _ => None
  }

  /** Join has loaded the zero that ends its loop. */
  predicate SawZero(j: Joiner) {
    j == ToClose || j == Joining || j == Returned
  }

  function Next(s: State, a: Action): Option<State> {
    match a
    case Submit(c, task) =>
      if c < |s.clients| && s.clients[c] == Outside then
        Some(Raise(s.(clients := s.clients[c := Submitting(task)], submitted := s.submitted + Nodes(task),
                      late := s.late || SawZero(s.joiner))))
      else None
    case SubmitPut(c, w) =>
      if c < |s.clients| && s.clients[c].Submitting? then
        PutTask(s.(clients := s.clients[c := Outside]), s.clients[c].task, w)
      else None
    case TakeTask(i) => if i < |s.workers| then WorkerNext(s, i, a) else None
    case SubmitChild(i) => if i < |s.workers| then WorkerNext(s, i, a) else None
    case ChildPut(i, _) => if i < |s.workers| then WorkerNext(s, i, a) else None
    case Finish(i) => if i < |s.workers| then WorkerNext(s, i, a) else None
    case Decrement(i) => if i < |s.workers| then WorkerNext(s, i, a) else None
    case Notify(i) => if i < |s.workers| then WorkerNext(s, i, a) else None
    case Wakeup(w) => (match Q.Spurious(s.q, w) case None => None case Some(q) => Some(s.(q := q)))
    case _ => JoinerNext(s, a)
  }

  function Init(workers: nat, clients: nat): State {
    State(Q.New(), 0, seq(workers, _ => Taking), seq(clients, _ => Outside), NotCalled, 0,
          multiset{}, multiset{}, [], [], false, false)
  }

  ghost predicate Reachable(s: State) {
    exists n: nat, m: nat, acts :: Exec(Next, Init(n, m), acts) == Some(s)
  }

  // ---- The counter

  function WorkerLoad(w: Worker): nat {
    match w
    case Running(_, _) => 1
    case Putting(_, _, _) => 2
    case ToDecrement => 1
    case _ => 0
  }

  function ClientLoad(c: Client): nat {
    if c.Submitting? then 1 else 0
  }

  /** The counter is what is being submitted, queued, executed, was rejected or dropped. */
  ghost predicate Counter(s: State) {
    && s.word == s.count % WORD
    && (s.joiner != ShutReturned ==>
          s.count == Sum(s.clients, ClientLoad) + |s.q.items| + Sum(s.workers, WorkerLoad) + |s.rejected| + |s.dropped|)
  }

  predicate Shutting(j: Joiner) {
    j.ShutJoining? || j.ShutStoring? || j.ShutReturned?
  }

  ghost predicate Closing(s: State) {
    && (s.q.closed <==> s.joiner == Joining || s.joiner == Returned || Shutting(s.joiner))
    && (s.dropped != [] ==> Shutting(s.joiner))
    && (s.rejected != [] ==> s.q.closed)
  }

  ghost predicate Exits(s: State) {
    && (s.joiner == Returned || s.joiner.ShutStoring? || s.joiner.ShutReturned? ==> AllExited(s))
    && (forall i :: 0 <= i < |s.workers| && s.workers[i] == Exited ==> s.q.closed && s.q.items == [])
  }

  /** Only workers inside Take wait in the queue. */
  ghost predicate Takers(s: State) {
    forall t :: t in s.q.waiting + s.q.woken ==> t < |s.workers| && s.workers[t] == Taking
  }

  ghost predicate Phases(s: State) {
    Closing(s) && Exits(s) && Takers(s)
  }

  lemma Wrapping(count: nat)
    ensures (count % WORD + 1) % WORD == (count + 1) % WORD
    ensures count > 0 ==> (count % WORD + WORD - 1) % WORD == (count - 1) % WORD
  {}

  lemma DecrementCounter(s: State, i: nat)
    requires Counter(s) && Phases(s) && Next(s, Decrement(i)).Some?
    ensures Counter(Next(s, Decrement(i)).value)
  {
    var s' := Next(s, Decrement(i)).value;
    assert s.joiner != ShutReturned && s'.joiner == s.joiner;
    assert s.workers[i] == ToDecrement && s'.workers == s.workers[i := s'.workers[i]] && WorkerLoad(s'.workers[i]) == 0;
    assert s'.clients == s.clients && s'.q == s.q && s'.rejected == s.rejected && s'.dropped == s.dropped;
    assert s'.word == (s.word + WORD - 1) % WORD && s'.count == if s.count > 0 then s.count - 1 else 0;
    hide Next, Phases, Closing, Exits, Takers;
    SumUpdate(s.workers, i, s'.workers[i], WorkerLoad);
    Wrapping(s.count);
  }

  /** What a worker's step does to everything the counter counts. */
  ghost predicate Moves(s: State, s': State, i: nat)
    requires i < |s.workers|
  {
    && |s'.workers| == |s.workers| && s'.workers == s.workers[i := s'.workers[i]]
    && s'.clients == s.clients && s'.dropped == s.dropped
    && (s'.joiner == ShutReturned <==> s.joiner == ShutReturned)
    && s'.count + |s.q.items| + WorkerLoad(s.workers[i]) + |s.rejected|
       == s.count + |s'.q.items| + WorkerLoad(s'.workers[i]) + |s'.rejected|
    && ((s'.count == s.count && s'.word == s.word) || (s'.count == s.count + 1 && s'.word == (s.word + 1) % WORD))
  }

  lemma TakeMoves(s: State, i: nat, a: Action)
    requires i < |s.workers| && WorkerNext(s, i, a).Some? && a.TakeTask?
    ensures Moves(s, WorkerNext(s, i, a).value, i)
  {}

  lemma PutMoves(s: State, i: nat, a: Action)
    requires i < |s.workers| && WorkerNext(s, i, a).Some? && a.ChildPut?
    ensures Moves(s, WorkerNext(s, i, a).value, i)
  {}

  lemma TaskMoves(s: State, i: nat, a: Action)
    requires i < |s.workers| && WorkerNext(s, i, a).Some? && (a.SubmitChild? || a.Finish? || a.Notify?)
    ensures Moves(s, WorkerNext(s, i, a).value, i)
  {}

  lemma WorkerCounter(s: State, i: nat, a: Action)
    requires Counter(s) && i < |s.workers| && WorkerNext(s, i, a).Some? && !a.Decrement?
    requires a.TakeTask? || a.SubmitChild? || a.ChildPut? || a.Finish? || a.Notify?
    ensures Counter(WorkerNext(s, i, a).value)
  {
    if a.TakeTask? { TakeMoves(s, i, a); } else if a.ChildPut? { PutMoves(s, i, a); } else { TaskMoves(s, i, a); }
    Wrapping(s.count);
    var s' := WorkerNext(s, i, a).value;
    SumUpdate(s.workers, i, s'.workers[i], WorkerLoad);
    hide WorkerNext, WorkerLoad, ClientLoad;
  }

  lemma SubmitCounter(s: State, c: nat, task: Task)
    requires Counter(s) && Next(s, Submit(c, task)).Some?
    ensures Counter(Next(s, Submit(c, task)).value)
  {
    SumUpdate(s.clients, c, Submitting(task), ClientLoad);
    Wrapping(s.count);
  }

  lemma SubmitPutCounter(s: State, c: nat, w: nat)
    requires Counter(s) && Next(s, SubmitPut(c, w)).Some?
    ensures Counter(Next(s, SubmitPut(c, w)).value)
  {
    SumUpdate(s.clients, c, Outside, ClientLoad);
  }

  lemma JoinerCounter(s: State, a: Action)
    requires Counter(s) && JoinerNext(s, a).Some?
    ensures Counter(JoinerNext(s, a).value)
  {}

  lemma CounterStep(s: State, a: Action)
    requires Counter(s) && Phases(s) && Next(s, a).Some?
    ensures Counter(Next(s, a).value)
  {
    match a
    case Submit(c, task) => SubmitCounter(s, c, task);
    case SubmitPut(c, w) => SubmitPutCounter(s, c, w);
    case TakeTask(i) => WorkerCounter(s, i, a);
    case SubmitChild(i) => WorkerCounter(s, i, a);
    case ChildPut(i, _) => WorkerCounter(s, i, a);
    case Finish(i) => WorkerCounter(s, i, a);
    case Decrement(i) => DecrementCounter(s, i);
    case Notify(i) => WorkerCounter(s, i, a);
    case Wakeup(_) =>
    case _ => JoinerCounter(s, a);
  }

  // ---- The phases of the pool

  lemma WorkerCloses(s: State, i: nat, a: Action)
    requires Closing(s) && i < |s.workers| && WorkerNext(s, i, a).Some?
    ensures Closing(WorkerNext(s, i, a).value)
  {}

  lemma WorkerExits(s: State, i: nat, a: Action)
    requires Exits(s) && i < |s.workers| && WorkerNext(s, i, a).Some?
    ensures Exits(WorkerNext(s, i, a).value)
  {
    var s' := WorkerNext(s, i, a).value;
    assert s.workers[i] != Exited && s'.workers == s.workers[i := s'.workers[i]];
    assert s.q.closed && s.q.items == [] ==> s'.q.closed && s'.q.items == [];
    assert s'.workers[i] == Exited ==> s'.q.closed && s'.q.items == [];
    assert s'.joiner == s.joiner || s'.joiner == Loading;
    hide WorkerNext;
  }

  lemma TakeTakers(s: State, i: nat)
    requires Takers(s) && Next(s, TakeTask(i)).Some?
    ensures Takers(Next(s, TakeTask(i)).value)
  {
    var s' := Next(s, TakeTask(i)).value;
    var before, after := s.q.waiting + s.q.woken, s'.q.waiting + s'.q.woken;
    assert after <= before + {i};
    assert i in after ==> s'.workers[i] == Taking;
    assert s'.workers == s.workers[i := s'.workers[i]];
    hide Next, WorkerNext;
  }

  lemma WorkerTakers(s: State, i: nat, a: Action)
    requires Takers(s) && i < |s.workers| && WorkerNext(s, i, a).Some? && !a.TakeTask?
    ensures Takers(WorkerNext(s, i, a).value)
  {
    var s' := WorkerNext(s, i, a).value;
    assert s'.workers == s.workers[i := s'.workers[i]] && s.workers[i] != Taking;
    assert s'.q.waiting + s'.q.woken == s.q.waiting + s.q.woken;
    hide WorkerNext;
  }

  lemma WorkerPhases(s: State, i: nat, a: Action)
    requires Phases(s) && i < |s.workers| && WorkerNext(s, i, a).Some?
    ensures Phases(WorkerNext(s, i, a).value)
  {
    WorkerCloses(s, i, a);
    WorkerExits(s, i, a);
    if a.TakeTask? {
      assert Next(s, TakeTask(i)) == WorkerNext(s, i, a);
      TakeTakers(s, i);
    } else {
      WorkerTakers(s, i, a);
    }
    hide WorkerNext, Next;
  }

  lemma JoinerTakers(s: State, a: Action)
    requires Takers(s) && JoinerNext(s, a).Some?
    ensures Takers(JoinerNext(s, a).value)
  {
    var s' := JoinerNext(s, a).value;
    assert s'.workers == s.workers && s'.q.waiting + s'.q.woken == s.q.waiting + s.q.woken;
    hide JoinerNext;
  }

  lemma JoinerPhases(s: State, a: Action)
    requires Phases(s) && JoinerNext(s, a).Some?
    ensures Phases(JoinerNext(s, a).value)
  {
    JoinerTakers(s, a);
    hide Takers;
  }

  lemma OutsidePhases(s: State, a: Action)
    requires Phases(s) && Next(s, a).Some? && (a.Submit? || a.SubmitPut? || a.Wakeup?)
    ensures Phases(Next(s, a).value)
  {
    var s' := Next(s, a).value;
    assert s'.workers == s.workers && s'.joiner == s.joiner && s'.dropped == s.dropped;
    assert s'.q.closed == s.q.closed && s'.q.waiting + s'.q.woken <= s.q.waiting + s.q.woken;
    assert s.q.closed ==> s'.q.items == s.q.items;
    assert !s.q.closed ==> s'.rejected == s.rejected;
    hide Next;
  }

  lemma QueueStep(s: State, a: Action)
    requires Q.Unstranded(s.q) && Next(s, a).Some?
    ensures Q.Unstranded(Next(s, a).value.q)
  {
    match a
    case SubmitPut(c, w) => Q.PutKeeps(s.q, s.clients[c].task, w);
    case TakeTask(i) => Q.TakeKeeps(s.q, i);
    case ChildPut(i, w) => Q.PutKeeps(s.q, s.workers[i].child, w);
    case Wakeup(w) => Q.SpuriousKeeps(s.q, w);
    case _ =>
  }

  lemma PhasesStep(s: State, a: Action)
    requires Phases(s) && Next(s, a).Some?
    ensures Phases(Next(s, a).value)
  {
    if a.Submit? || a.SubmitPut? || a.Wakeup? {
      OutsidePhases(s, a);
    } else if a.TakeTask? || a.SubmitChild? || a.ChildPut? || a.Finish? || a.Decrement? || a.Notify? {
      WorkerPhases(s, a.i, a);
    } else {
      JoinerPhases(s, a);
    }
  }

  // ---- Every task is somewhere, once

  function WorkerNodes(w: Worker): multiset<Task> {
    match w
    case Running(task, rest) => multiset{task} + NodesOf(rest)
    case Putting(task, child, rest) => multiset{task} + (Nodes(child) + NodesOf(rest))
    case _ => multiset{}
  }

  function ClientNodes(c: Client): multiset<Task> {
    if c.Submitting? then Nodes(c.task) else multiset{}
  }

  function WorkerHolds(x: Task): Worker -> nat {
    w => WorkerNodes(w)[x]
  }

  function ClientHolds(x: Task): Client -> nat {
    c => ClientNodes(c)[x]
  }

  /** What became of task x, as often as it was submitted: it ran, or it waits or will be submitted
      by a task that waits or runs, or it (or its submitter) was refused or thrown away. */
  ghost predicate Ledger(s: State, x: Task) {
    s.submitted[x] == s.ran[x] + NodesOf(s.rejected)[x] + NodesOf(s.dropped)[x] + NodesOf(s.q.items)[x]
      + Sum(s.clients, ClientHolds(x)) + Sum(s.workers, WorkerHolds(x))
  }

  lemma {:induction false} NodesAppend(a: seq<Task>, b: seq<Task>, x: Task)
    ensures NodesOf(a + b)[x] == NodesOf(a)[x] + NodesOf(b)[x]
  {
    if a == [] {
      assert a + b == b;
    } else {
      assert (a + b)[1..] == a[1..] + b;
      NodesAppend(a[1..], b, x);
    }
  }

  lemma NodesFirst(t: Task, ts: seq<Task>, x: Task)
    ensures NodesOf([t] + ts)[x] == Nodes(t)[x] + NodesOf(ts)[x]
    ensures NodesOf([])[x] == 0
  {
    assert ([t] + ts)[1..] == ts;
  }

  lemma PutEffect(s: State, t: Task, w: nat)
    requires PutTask(s, t, w).Some?
    ensures var s' := PutTask(s, t, w).value;
      && s' == s.(q := s'.q, rejected := s'.rejected)
      && (if s.q.closed then s'.q.items == s.q.items && s'.rejected == s.rejected + [t]
          else s'.q.items == s.q.items + [t] && s'.rejected == s.rejected)
  {}

  /** A task put into the queue, or refused, takes its nodes there. */
  lemma PutLedger(s: State, t: Task, w: nat, x: Task)
    requires PutTask(s, t, w).Some?
    ensures var s' := PutTask(s, t, w).value;
      && NodesOf(s'.q.items)[x] + NodesOf(s'.rejected)[x]
         == NodesOf(s.q.items)[x] + NodesOf(s.rejected)[x] + Nodes(t)[x]
      && s' == s.(q := s'.q, rejected := s'.rejected)
  {
    PutEffect(s, t, w);
    hide PutTask, NodesOf, Nodes;
    NodesFirst(t, [], x);
    assert [t] + [] == [t];
    if s.q.closed {
      NodesAppend(s.rejected, [t], x);
    } else {
      NodesAppend(s.q.items, [t], x);
    }
  }

  lemma SubmitLedger(s: State, c: nat, task: Task, x: Task)
    requires Ledger(s, x) && Next(s, Submit(c, task)).Some?
    ensures Ledger(Next(s, Submit(c, task)).value, x)
  {
    SumUpdate(s.clients, c, Submitting(task), ClientHolds(x));
    hide NodesOf, Nodes, Sum;
  }

  lemma SubmitPutLedger(s: State, c: nat, w: nat, x: Task)
    requires Ledger(s, x) && Next(s, SubmitPut(c, w)).Some?
    ensures Ledger(Next(s, SubmitPut(c, w)).value, x)
  {
    SumUpdate(s.clients, c, Outside, ClientHolds(x));
    PutLedger(s.(clients := s.clients[c := Outside]), s.clients[c].task, w, x);
    hide NodesOf, Nodes, Sum, PutTask;
  }

  /** A worker's step that touches neither the clients nor what was refused. */
  lemma WorkerLedger(s: State, s': State, i: nat, x: Task)
    requires Ledger(s, x) && i < |s.workers| == |s'.workers| && s'.workers == s.workers[i := s'.workers[i]]
    requires s'.submitted == s.submitted && s'.clients == s.clients
    requires s'.rejected == s.rejected && s'.dropped == s.dropped
    requires s'.ran[x] + NodesOf(s'.q.items)[x] + WorkerNodes(s'.workers[i])[x]
          == s.ran[x] + NodesOf(s.q.items)[x] + WorkerNodes(s.workers[i])[x]
    ensures Ledger(s', x)
  {
    SumUpdate(s.workers, i, s'.workers[i], WorkerHolds(x));
  }

  lemma TakeEffect(s: State, i: nat)
    requires Next(s, TakeTask(i)).Some?
    ensures var s' := Next(s, TakeTask(i)).value;
      && i < |s.workers| == |s'.workers| && s.workers[i] == Taking
      && s' == s.(q := s'.q, workers := s.workers[i := s'.workers[i]])
      && if s.q.items == [] then s'.q.items == [] && (s'.workers[i] == Taking || s'.workers[i] == Exited)
         else s'.q.items == s.q.items[1..] && s'.workers[i] == Running(s.q.items[0], s.q.items[0].children)
  {}

  lemma TakeLedger(s: State, i: nat, x: Task)
    requires Ledger(s, x) && Next(s, TakeTask(i)).Some?
    ensures Ledger(Next(s, TakeTask(i)).value, x)
  {
    TakeEffect(s, i);
    var s' := Next(s, TakeTask(i)).value;
    IdleHoldsNothing(x);
    hide Next, WorkerNext, WorkerNodes, NodesOf, Nodes, Ledger;
    if s.q.items != [] {
      var task, rest := s.q.items[0], s.q.items[1..];
      NodesFirst(task, rest, x);
      StartNodes(task, x);
      assert [task] + rest == s.q.items;
      assert NodesOf(s'.q.items)[x] + WorkerNodes(s'.workers[i])[x] == NodesOf(s.q.items)[x];
    }
    WorkerLedger(s, s', i, x);
  }

  lemma IdleHoldsNothing(x: Task)
    ensures WorkerNodes(Taking)[x] == 0 && WorkerNodes(Exited)[x] == 0
  {}

  lemma StartNodes(t: Task, x: Task)
    ensures WorkerNodes(Running(t, t.children))[x] == Nodes(t)[x]
  {}

  lemma ChildEffect(s: State, i: nat)
    requires Next(s, SubmitChild(i)).Some?
    ensures i < |s.workers| && s.workers[i].Running? && s.workers[i].rest != []
    ensures var Running(task, rest) := s.workers[i];
      Next(s, SubmitChild(i)).value == Raise(SetWorker(s, i, Putting(task, rest[0], rest[1..])))
  {}

  lemma ChildLedger(s: State, i: nat, x: Task)
    requires Ledger(s, x) && Next(s, SubmitChild(i)).Some?
    ensures Ledger(Next(s, SubmitChild(i)).value, x)
  {
    ChildEffect(s, i);
    hide Next, WorkerNext, WorkerNodes, NodesOf, Ledger;
    ChildNodes(s.workers[i].task, s.workers[i].rest, x);
    WorkerLedger(s, Next(s, SubmitChild(i)).value, i, x);
  }

  lemma ChildNodes(task: Task, rest: seq<Task>, x: Task)
    requires rest != []
    ensures WorkerNodes(Putting(task, rest[0], rest[1..]))[x] == WorkerNodes(Running(task, rest))[x]
  {
    NodesFirst(rest[0], rest[1..], x);
    assert [rest[0]] + rest[1..] == rest;
    hide NodesOf, Nodes;
  }

  lemma FinishEffect(s: State, i: nat)
    requires Next(s, Finish(i)).Some?
    ensures i < |s.workers| && s.workers[i].Running? && s.workers[i].rest == []
    ensures Next(s, Finish(i)).value == SetWorker(s, i, ToDecrement).(ran := s.ran + multiset{s.workers[i].task})
  {}

  lemma EndNodes(t: Task, x: Task)
    ensures WorkerNodes(Running(t, []))[x] == multiset{t}[x] && WorkerNodes(ToDecrement)[x] == 0
  {
    NodesEmpty(x);
  }

  lemma FinishLedger(s: State, i: nat, x: Task)
    requires Ledger(s, x) && Next(s, Finish(i)).Some?
    ensures Ledger(Next(s, Finish(i)).value, x)
  {
    FinishEffect(s, i);
    hide Next, WorkerNext, WorkerNodes, NodesOf, Nodes, Ledger;
    var task := s.workers[i].task;
    assert s.workers[i] == Running(task, []);
    EndNodes(task, x);
    WorkerLedger(s, Next(s, Finish(i)).value, i, x);
  }

  lemma IdleEffect(s: State, i: nat, a: Action)
    requires i < |s.workers| && WorkerNext(s, i, a).Some? && (a.Decrement? || a.Notify?)
    ensures var s' := WorkerNext(s, i, a).value;
      && |s'.workers| == |s.workers| && s'.workers == s.workers[i := s'.workers[i]] && s'.q == s.q && s'.ran == s.ran
      && s'.submitted == s.submitted && s'.clients == s.clients && s'.rejected == s.rejected && s'.dropped == s.dropped
      && WorkerNodes(s.workers[i]) == multiset{} == WorkerNodes(s'.workers[i])
  {}

  lemma IdleLedger(s: State, i: nat, a: Action, x: Task)
    requires Ledger(s, x) && i < |s.workers| && WorkerNext(s, i, a).Some? && (a.Decrement? || a.Notify?)
    ensures Ledger(WorkerNext(s, i, a).value, x)
  {
    IdleEffect(s, i, a);
    hide WorkerNext, WorkerNodes, NodesOf, Ledger;
    WorkerLedger(s, WorkerNext(s, i, a).value, i, x);
  }

  lemma ChildPutLedger(s: State, i: nat, w: nat, x: Task)
    requires Ledger(s, x) && Next(s, ChildPut(i, w)).Some?
    ensures Ledger(Next(s, ChildPut(i, w)).value, x)
  {
    var Putting(task, child, rest) := s.workers[i];
    SumUpdate(s.workers, i, Running(task, rest), WorkerHolds(x));
    PutLedger(SetWorker(s, i, Running(task, rest)), child, w, x);
    hide NodesOf, Nodes, Sum, PutTask;
  }

  lemma JoinerEffect(s: State, a: Action)
    requires JoinerNext(s, a).Some?
    ensures var s' := JoinerNext(s, a).value;
      && s'.submitted == s.submitted && s'.ran == s.ran && s'.rejected == s.rejected
      && s'.clients == s.clients && s'.workers == s.workers
      && (|| (s'.dropped == s.dropped && s'.q.items == s.q.items)
          || (s'.dropped == s.dropped + s.q.items && s'.q.items == []))
  {}

  lemma JoinerLedger(s: State, a: Action, x: Task)
    requires Ledger(s, x) && JoinerNext(s, a).Some?
    ensures Ledger(JoinerNext(s, a).value, x)
  {
    JoinerEffect(s, a);
    NodesEmpty(x);
    hide JoinerNext, NodesOf;
    NodesAppend(s.dropped, s.q.items, x);
  }

  lemma NodesEmpty(x: Task)
    ensures NodesOf([])[x] == 0
  {}

  lemma WakeupLedger(s: State, w: nat, x: Task)
    requires Ledger(s, x) && Next(s, Wakeup(w)).Some?
    ensures Ledger(Next(s, Wakeup(w)).value, x)
  {
    var s' := Next(s, Wakeup(w)).value;
    assert s' == s.(q := s'.q) && s'.q.items == s.q.items;
    hide Next, NodesOf, Sum, ClientHolds, WorkerHolds;
  }

  lemma LedgerStep(s: State, a: Action, x: Task)
    requires Ledger(s, x) && Next(s, a).Some?
    ensures Ledger(Next(s, a).value, x)
  {
    hide Ledger, WorkerNext, JoinerNext;
    match a
    case Submit(c, task) => SubmitLedger(s, c, task, x);
    case SubmitPut(c, w) => SubmitPutLedger(s, c, w, x);
    case TakeTask(i) => TakeLedger(s, i, x);
    case ChildPut(i, w) => ChildPutLedger(s, i, w, x);
    case SubmitChild(i) => ChildLedger(s, i, x);
    case Finish(i) => FinishLedger(s, i, x);
    case Decrement(i) => IdleLedger(s, i, a, x);
    case Notify(i) => IdleLedger(s, i, a, x);
    case Wakeup(w) => WakeupLedger(s, w, x);
    case _ => JoinerLedger(s, a, x);
  }

  // ---- The invariant of every run

  /** Join goes on only when the counter was zero; while no Submit begins after that, it stays so. */
  ghost predicate Zero(s: State) {
    SawZero(s.joiner) && !s.late && !s.falseZero ==> s.count == 0
  }

  ghost predicate Inv(s: State) {
    && Counter(s) && Phases(s) && Q.Unstranded(s.q) && Zero(s)
    && forall x :: Ledger(s, x)
  }

  /** When the counter is zero, nothing is queued, submitted, executed, refused or dropped. */
  lemma NothingAtZero(s: State)
    requires Counter(s) && s.joiner != ShutReturned && s.count == 0
    ensures forall c :: 0 <= c < |s.clients| ==> s.clients[c] == Outside
    ensures forall i :: 0 <= i < |s.workers| ==>
      s.workers[i] == Taking || s.workers[i] == ToNotify || s.workers[i] == Exited
    ensures s.q.items == [] && s.rejected == [] && s.dropped == []
  {
    SumZero(s.clients, ClientLoad);
    SumZero(s.workers, WorkerLoad);
    forall c | 0 <= c < |s.clients| ensures s.clients[c] == Outside {
      assert ClientLoad(s.clients[c]) == 0;
    }
    forall i | 0 <= i < |s.workers|
      ensures s.workers[i] == Taking || s.workers[i] == ToNotify || s.workers[i] == Exited
    {
      assert WorkerLoad(s.workers[i]) == 0;
    }
  }

  lemma ZeroStep(s: State, a: Action)
    requires Counter(s) && Zero(s) && Next(s, a).Some?
    ensures Zero(Next(s, a).value)
  {
    if SawZero(s.joiner) && !s.late && !s.falseZero {
      NothingAtZero(s);
    }
  }

  lemma InvStep(s: State, a: Action)
    requires Inv(s) && Next(s, a).Some?
    ensures Inv(Next(s, a).value)
  {
    CounterStep(s, a);
    PhasesStep(s, a);
    QueueStep(s, a);
    ZeroStep(s, a);
    var s' := Next(s, a).value;
    forall x ensures Ledger(s', x) {
      LedgerStep(s, a, x);
    }
    hide Next, Counter, Phases, Zero, Ledger;
  }

  lemma InitInv(n: nat, m: nat)
    ensures Inv(Init(n, m))
  {
    var s := Init(n, m);
    SumZero(s.clients, ClientLoad);
    SumZero(s.workers, WorkerLoad);
    forall x ensures Ledger(s, x) {
      NodesEmpty(x);
      SumZero(s.clients, ClientHolds(x));
      SumZero(s.workers, WorkerHolds(x));
    }
  }

  lemma ReachableInv(s: State)
    requires Reachable(s)
    ensures Inv(s)
  {
    var n: nat, m: nat, acts :| Exec(Next, Init(n, m), acts) == Some(s);
    InitInv(n, m);
    forall x, a | Inv(x) && Next(x, a).Some? ensures Inv(Next(x, a).value) {
      InvStep(x, a);
    }
    hide Inv, Next;
    Invariant(Next, Inv, Init(n, m), acts);
  }

  // ---- What Join and Shutdown promise

  /** When all workers are idle or gone and nothing is queued, the ledger of x has only final entries. */
  lemma SettledLedger(s: State, x: Task)
    requires Ledger(s, x) && s.q.items == []
    requires forall i :: 0 <= i < |s.workers| ==> WorkerNodes(s.workers[i]) == multiset{}
    ensures s.submitted[x] == s.ran[x] + NodesOf(s.rejected)[x] + NodesOf(s.dropped)[x] + Sum(s.clients, ClientHolds(x))
  {
    NodesEmpty(x);
    forall i | 0 <= i < |s.workers| ensures WorkerHolds(x)(s.workers[i]) == 0 {
      assert WorkerNodes(s.workers[i])[x] == 0;
    }
    SumZero(s.workers, WorkerHolds(x));
  }

  /** If Join returns, and no outside Submit began after it had seen the counter at zero (and that
      zero was not 2^32 outstanding tasks), then every task submitted, directly or by a task, ran
      exactly as often as it was submitted, none was refused, and the counter is zero. */
  lemma JoinIsComplete(s: State)
    requires Reachable(s) && s.joiner == Returned && !s.late && !s.falseZero
    ensures s.ran == s.submitted && s.rejected == [] && s.dropped == []
    ensures s.count == 0 && s.word == 0 && AllExited(s)
  {
    ReachableInv(s);
    NothingAtZero(s);
    assert AllExited(s);
    hide Inv, Reachable, Counter, Phases, Zero, Ledger;
    AllRan(s);
  }

  /** When nothing is in anybody's hands and nothing was refused or dropped, all has run. */
  lemma AllRan(s: State)
    requires forall x :: Ledger(s, x)
    requires forall c :: 0 <= c < |s.clients| ==> s.clients[c] == Outside
    requires forall i :: 0 <= i < |s.workers| ==> WorkerNodes(s.workers[i]) == multiset{}
    requires s.q.items == [] && s.rejected == [] && s.dropped == []
    ensures s.ran == s.submitted
  {
    forall x ensures s.submitted[x] == s.ran[x] {
      SettledLedger(s, x);
      forall c | 0 <= c < |s.clients| ensures ClientHolds(x)(s.clients[c]) == 0 {
        assert ClientNodes(s.clients[c])[x] == 0;
      }
      SumZero(s.clients, ClientHolds(x));
      NodesEmpty(x);
    }
  }

  /** Join takes a zero for real exactly when fewer than 2^32 tasks, or no multiple, are outstanding. */
  lemma ZeroIsFalseOnlyOnWrap(s: State)
    requires Reachable(s) && s.joiner == Loading && !s.falseZero
    ensures Next(s, Load).Some?
    ensures Next(s, Load).value.falseZero <==> s.count > 0 && s.count % WORD == 0
  {
    ReachableInv(s);
  }

  /** In every run that ends with the workers joined, by Join or by Shutdown, the tasks that did not
      run are exactly those refused, thrown away or still inside a Submit, with what they submit. */
  lemma NoTaskVanishes(s: State, x: Task)
    requires Reachable(s) && |s.workers| > 0 && AllExited(s)
    ensures s.submitted[x] == s.ran[x] + NodesOf(s.rejected)[x] + NodesOf(s.dropped)[x] + Sum(s.clients, ClientHolds(x))
  {
    ReachableInv(s);
    assert s.workers[0] == Exited;
    SettledLedger(s, x);
  }

  // ---- Exactly when the futex is used

  /** A worker notifies exactly if its decrement leaves a multiple of 2^32 tasks outstanding. */
  lemma NotifiesExactlyAtZero(s: State, i: nat)
    requires Reachable(s) && Next(s, Decrement(i)).Some?
    ensures var s' := Next(s, Decrement(i)).value;
      && s.count > 0 && s'.count == s.count - 1 && i < |s'.workers|
      && s'.workers[i] == if s'.count % WORD == 0 then ToNotify else Taking
  {
    ReachableInv(s);
    DecrementCounter(s, i);
    SumAtLeast(s.workers, i, WorkerLoad);
  }

  /** Join parks exactly if the counter reads zero at the kernel's comparison: with work outstanding
      it never sleeps but goes round its loop. */
  lemma JoinParksExactlyAtZero(s: State)
    requires Reachable(s) && s.joiner == ToFutex
    ensures Next(s, Check).Some?
    ensures var s' := Next(s, Check).value;
      if s.count % WORD == 0 then s'.joiner == Checked && Next(s', Park).Some? && Next(s', Park).value.joiner == Parked
      else s'.joiner == Loading && Next(s', Load).Some? && Next(s', Load).value.joiner == ToFutex
  {
    ReachableInv(s);
    hide Reachable, Phases, Zero, Ledger;
  }

  /** Join leaves its loop exactly if it loads a zero. */
  lemma JoinClosesExactlyAtZero(s: State)
    requires Reachable(s) && s.joiner == Loading
    ensures Next(s, Load).Some? && Next(s, Load).value.joiner == if s.count % WORD == 0 then ToClose else ToFutex
  {
    ReachableInv(s);
  }

  // ---- Tasks submit in order

  /** What a worker has still to submit is the end of its task's list, the child in hand before it. */
  ghost predicate InOrder(w: Worker) {
    match w
    case Running(task, rest) => |rest| <= |task.children| && rest == task.children[|task.children| - |rest|..]
    case Putting(task, child, rest) =>
      |rest| < |task.children| && [child] + rest == task.children[|task.children| - |rest| - 1..]
    case _ => true
  }

  ghost predicate AllInOrder(s: State) {
    forall i :: 0 <= i < |s.workers| ==> InOrder(s.workers[i])
  }

  lemma OrderStep(s: State, a: Action)
    requires AllInOrder(s) && Next(s, a).Some?
    ensures AllInOrder(Next(s, a).value)
  {
    var s' := Next(s, a).value;
    if a.TakeTask? || a.SubmitChild? || a.ChildPut? || a.Finish? || a.Decrement? || a.Notify? {
      OwnOrder(s, a.i, a);
    } else {
      assert s'.workers == s.workers;
    }
  }

  lemma OwnOrder(s: State, i: nat, a: Action)
    requires AllInOrder(s) && i < |s.workers| && WorkerNext(s, i, a).Some?
    ensures AllInOrder(WorkerNext(s, i, a).value)
  {
    var s', w := WorkerNext(s, i, a).value, s.workers[i];
    assert InOrder(w);
    OwnPlace(s, i, a);
    hide WorkerNext;
    if w.Running? && w.rest != [] {
      assert [w.rest[0]] + w.rest[1..] == w.rest;
    }
    if w.Putting? {
      assert w.rest == ([w.child] + w.rest)[1..];
    }
  }

  /** How a worker goes through its task's list. */
  lemma OwnPlace(s: State, i: nat, a: Action)
    requires i < |s.workers| && WorkerNext(s, i, a).Some?
    ensures var s', w := WorkerNext(s, i, a).value, s.workers[i];
      && |s'.workers| == |s.workers| && s'.workers == s.workers[i := s'.workers[i]]
      && match w
         case Taking =>
           && !s'.workers[i].Putting?
           && (s'.workers[i].Running? ==> s'.workers[i].rest == s'.workers[i].task.children)
         case Running(task, rest) =>
           if rest == [] then s'.workers[i] == ToDecrement else s'.workers[i] == Putting(task, rest[0], rest[1..])
         case Putting(task, child, rest) => s'.workers[i] == Running(task, rest)
         case _ => s'.workers[i] == Taking || s'.workers[i] == ToNotify
  {}

  /** A task submits its children in its own order, each once: whatever is going on, those still to
      be submitted are the last ones of its list. */
  lemma ChildrenInOrder(s: State, i: nat)
    requires Reachable(s) && i < |s.workers|
    ensures InOrder(s.workers[i])
  {
    var n: nat, m: nat, acts :| Exec(Next, Init(n, m), acts) == Some(s);
    forall x, a | AllInOrder(x) && Next(x, a).Some? ensures AllInOrder(Next(x, a).value) {
      OrderStep(x, a);
    }
    hide Next, InOrder;
    assert AllInOrder(Init(n, m)) by { InitOrder(n, m); }
    Invariant(Next, AllInOrder, Init(n, m), acts);
  }

  lemma InitOrder(n: nat, m: nat)
    ensures AllInOrder(Init(n, m))
  {}

  // ---- Shutdown

  ghost predicate NothingQueued(s: State) {
    Shutting(s.joiner) ==> s.q.closed && s.q.items == []
  }

  lemma NothingQueuedStep(s: State, a: Action)
    requires NothingQueued(s) && Next(s, a).Some?
    ensures NothingQueued(Next(s, a).value)
  {}

  /** Once Shutdown has begun nothing is queued any more, so no task is started; when it resets the
      counter and afterwards, all workers have exited. */
  lemma ShutdownStopsThePool(s: State)
    requires Reachable(s) && Shutting(s.joiner)
    ensures s.q.closed && s.q.items == []
    ensures s.joiner == ShutStoring || s.joiner == ShutReturned ==> AllExited(s)
    ensures forall i: nat :: Next(s, TakeTask(i)).Some? ==> ExitsWith(s, i)
  {
    ReachableInv(s);
    NothingIsQueued(s);
    hide Reachable, Next;
    forall i: nat | Next(s, TakeTask(i)).Some? ensures ExitsWith(s, i) {
      TakerExits(s, i);
    }
  }

  /** The worker's next Take returns nullopt, and it leaves its loop. */
  ghost predicate ExitsWith(s: State, i: nat) {
    Next(s, TakeTask(i)).Some? && var s' := Next(s, TakeTask(i)).value; i < |s'.workers| && s'.workers[i] == Exited
  }

  lemma TakerExits(s: State, i: nat)
    requires s.q.closed && s.q.items == [] && Next(s, TakeTask(i)).Some?
    ensures ExitsWith(s, i)
  {}

  lemma NothingIsQueued(s: State)
    requires Reachable(s)
    ensures NothingQueued(s)
  {
    var n: nat, m: nat, acts :| Exec(Next, Init(n, m), acts) == Some(s);
    forall x, a | NothingQueued(x) && Next(x, a).Some? ensures NothingQueued(Next(x, a).value) {
      NothingQueuedStep(x, a);
    }
    hide Next;
    Invariant(Next, NothingQueued, Init(n, m), acts);
  }

  /** How many Submits from outside begin in a run. */
  function Submits(acts: seq<Action>): nat {
    if acts == [] then 0 else (if acts[0].Submit? then 1 else 0) + Submits(acts[1..])
  }

  lemma OnlySubmitRaises(s: State, a: Action)
    requires AllExited(s) && s.joiner == ShutReturned && Next(s, a).Some?
    ensures Next(s, a).value.joiner == ShutReturned
    ensures Next(s, a).value.count == s.count + if a.Submit? then 1 else 0
  {}

  lemma {:induction false} AfterShutdown(s: State, acts: seq<Action>, s': State)
    requires Inv(s) && s.joiner == ShutReturned && Exec(Next, s, acts) == Some(s')
    ensures s'.joiner == ShutReturned && s'.word == (s.count + Submits(acts)) % WORD
    decreases |acts|
  {
    if acts != [] {
      var s1 := Next(s, acts[0]).value;
      OnlySubmitRaises(s, acts[0]);
      InvStep(s, acts[0]);
      hide Next, Inv;
      AfterShutdown(s1, acts[1..], s');
    } else {
      assert Counter(s);
    }
  }

  /** Shutdown leaves the counter at zero, as the destructor asserts, and from then on only a Submit
      from outside raises it: its value is the number of those begun since, modulo 2^32. */
  lemma ShutdownLeavesZero(s: State, acts: seq<Action>, s': State)
    requires Reachable(s) && Next(s, ShutStore).Some? && Exec(Next, Next(s, ShutStore).value, acts) == Some(s')
    ensures s'.joiner == ShutReturned && AllExited(s') && s'.word == Submits(acts) % WORD
  {
    ReachableInv(s);
    InvStep(s, ShutStore);
    var s1 := Next(s, ShutStore).value;
    assert s1.joiner == ShutReturned && s1.count == 0;
    hide Next, Inv;
    AfterShutdown(s1, acts, s');
    StaysInv(s1, acts, s');
    ExitedAfterShutdown(s');
  }

  lemma ExitedAfterShutdown(s: State)
    requires Inv(s) && s.joiner == ShutReturned
    ensures AllExited(s)
  {}

  lemma StaysInv(s: State, acts: seq<Action>, s': State)
    requires Inv(s) && Exec(Next, s, acts) == Some(s')
    ensures Inv(s')
  {
    forall x, a | Inv(x) && Next(x, a).Some? ensures Inv(Next(x, a).value) {
      InvStep(x, a);
    }
    hide Next, Inv;
    Invariant(Next, Inv, s, acts);
  }

  // ---- When Join does not return

  /** Steps that need no new call from outside and no spurious wakeup. */
  predicate Driven(a: Action) {
    !a.Submit? && !a.JoinCall? && !a.ShutCall? && !a.JoinSpurious? && !a.Wakeup?
  }

  ghost predicate Stuck(s: State) {
    forall a: Action :: Driven(a) ==> Next(s, a).None?
  }

  predicate InJoin(j: Joiner) {
    j == Loading || j == ToFutex || j == Checked || j == Parked || j == ToClose || j == Joining
  }

  /** The pool at rest: no Submit in progress, all workers asleep in Take. */
  ghost predicate AtRest(s: State) {
    && (forall c :: 0 <= c < |s.clients| ==> s.clients[c] == Outside)
    && (forall i :: 0 <= i < |s.workers| ==> s.workers[i] == Taking && i in s.q.waiting)
  }

  ghost function Pick(q: Q.Queue<Task>): nat {
    if q.waiting == {} then 0 else var w :| w in q.waiting; w
  }

  lemma StuckWorker(s: State, i: nat)
    requires Stuck(s) && i < |s.workers| && s.joiner != Checked
    ensures s.workers[i] == Exited || (s.workers[i] == Taking && i in s.q.waiting)
  {
    assert Next(s, TakeTask(i)).None? && Next(s, SubmitChild(i)).None? && Next(s, Finish(i)).None?;
    assert Next(s, Decrement(i)).None? && Next(s, Notify(i)).None?;
    assert Next(s, ChildPut(i, Pick(s.q))).None?;
  }

  lemma StuckClient(s: State, c: nat)
    requires Stuck(s) && c < |s.clients|
    ensures s.clients[c] == Outside
  {
    assert Next(s, SubmitPut(c, Pick(s.q))).None?;
  }

  /** Join is stuck exactly when it is parked and the pool is at rest; and then nothing is left to
      do: the counter it waits for is zero and every task has run. */
  lemma JoinIsStuckExactlyWhenParkedAtRest(s: State)
    requires Reachable(s) && |s.workers| > 0 && InJoin(s.joiner)
    ensures Stuck(s) <==> s.joiner == Parked && AtRest(s)
    ensures Stuck(s) ==> s.count == 0 && s.ran == s.submitted && s.q.items == []
  {
    ReachableInv(s);
    if s.joiner == Parked && AtRest(s) {
      RestIsStuck(s);
    }
    if Stuck(s) {
      hide Stuck;
      StuckJoin(s);
      RestMeansDone(s);
    }
  }

  lemma RestIsStuck(s: State)
    requires s.joiner == Parked && AtRest(s)
    ensures Stuck(s)
  {
    forall a: Action | Driven(a) ensures Next(s, a).None? {}
  }

  lemma StuckJoin(s: State)
    requires Inv(s) && |s.workers| > 0 && InJoin(s.joiner) && Stuck(s)
    ensures s.joiner == Parked && AtRest(s)
  {
    assert Next(s, Park).None? && Next(s, Load).None? && Next(s, Check).None?;
    assert Next(s, JoinClose).None? && Next(s, JoinDone).None?;
    forall c: nat | c < |s.clients| ensures s.clients[c] == Outside {
      StuckClient(s, c);
    }
    forall i: nat | i < |s.workers| ensures s.workers[i] == Exited || (s.workers[i] == Taking && i in s.q.waiting) {
      StuckWorker(s, i);
    }
    if s.joiner == Joining {
      assert AllExited(s);
      assert false;
    }
  }

  lemma RestMeansDone(s: State)
    requires Inv(s) && |s.workers| > 0 && AtRest(s)
    requires s.joiner == Loading || s.joiner == ToFutex || s.joiner == Parked
    ensures s.count == 0 && s.ran == s.submitted && s.q.items == []
  {
    assert s.workers[0] == Taking && 0 in s.q.waiting;
    assert forall t :: t in s.q.woken ==> t in s.q.waiting + s.q.woken;
    assert s.q.woken <= s.q.waiting;
    SumZero(s.clients, ClientLoad);
    SumZero(s.workers, WorkerLoad);
    AllRan(s);
  }

  lemma ReachableStep(s: State, a: Action)
    requires Reachable(s) && Next(s, a).Some?
    ensures Reachable(Next(s, a).value)
  {
    hide Next, Init;
    var n: nat, m: nat, acts :| Exec(Next, Init(n, m), acts) == Some(s);
    Extend(Next, Init(n, m), acts, a);
    assert Exec(Next, Init(n, m), acts + [a]) == Some(Next(s, a).value);
  }

  /** A pool of one worker and one client with nobody in the queue's condition variable. */
  ghost predicate Scene(s: State, worker: Worker, client: Client, items: seq<Task>, word: nat, joiner: Joiner) {
    && Reachable(s) && s.workers == [worker] && s.clients == [client]
    && s.q == Q.Queue(items, false, {}, {}) && s.word == word && s.joiner == joiner
  }

  lemma InitReachable()
    ensures Reachable(Init(1, 1))
  {
    Nothing(Next, Init(1, 1));
  }

  lemma SubmitScene(t: Task) returns (s: State)
    ensures Scene(s, Taking, Outside, [t], 1, NotCalled)
  {
    InitReachable();
    hide Reachable;
    var s0 := Init(1, 1);
    var s1 := Next(s0, Submit(0, t)).value;
    ReachableStep(s0, Submit(0, t));
    assert s1.workers == [Taking] && s1.clients == [Submitting(t)];
    assert Scene(s1, Taking, Submitting(t), [], 1, NotCalled);
    hide Next, Init, Scene;
    s := EnqueueScene(s1, t);
  }

  lemma EnqueueScene(s: State, t: Task) returns (s': State)
    requires Scene(s, Taking, Submitting(t), [], 1, NotCalled)
    ensures Scene(s', Taking, Outside, [t], 1, NotCalled)
  {
    s' := Next(s, SubmitPut(0, 0)).value;
    hide Reachable;
    ReachableStep(s, SubmitPut(0, 0));
    assert [] + [t] == [t];
  }

  lemma JoinScene(s: State, t: Task) returns (s': State)
    requires Scene(s, Taking, Outside, [t], 1, NotCalled)
    ensures Scene(s', Taking, Outside, [t], 1, ToFutex)
  {
    hide Reachable;
    var s1 := Next(s, JoinCall).value;
    ReachableStep(s, JoinCall);
    s' := Next(s1, Load).value;
    ReachableStep(s1, Load);
  }

  lemma RunScene(s: State, t: Task) returns (s': State)
    requires Scene(s, Taking, Outside, [t], 1, ToFutex) && t.children == []
    ensures Scene(s', ToDecrement, Outside, [], 1, ToFutex)
  {
    hide Reachable;
    var s1 := Next(s, TakeTask(0)).value;
    ReachableStep(s, TakeTask(0));
    assert Scene(s1, Running(t, []), Outside, [], 1, ToFutex);
    s' := Next(s1, Finish(0)).value;
    ReachableStep(s1, Finish(0));
  }

  lemma DecrementScene(s: State) returns (s': State)
    requires Scene(s, ToDecrement, Outside, [], 1, ToFutex)
    ensures Scene(s', Taking, Outside, [], 0, ToFutex)
  {
    hide Reachable;
    var s1 := Next(s, Decrement(0)).value;
    ReachableStep(s, Decrement(0));
    assert Scene(s1, ToNotify, Outside, [], 0, ToFutex);
    s' := Next(s1, Notify(0)).value;
    ReachableStep(s1, Notify(0));
  }

  lemma SleepScene(s: State) returns (s': State)
    requires Scene(s, Taking, Outside, [], 0, ToFutex)
    ensures Reachable(s') && |s'.workers| == 1 && s'.joiner == Parked && AtRest(s')
  {
    hide Reachable;
    var s1 := Next(s, TakeTask(0)).value;
    ReachableStep(s, TakeTask(0));
    assert s1.workers == [Taking] && 0 in s1.q.waiting && s1.clients == [Outside];
    assert s1.word == 0 && s1.joiner == ToFutex;
    var s2 := Next(s1, Check).value;
    ReachableStep(s1, Check);
    s' := Next(s2, Park).value;
    ReachableStep(s2, Park);
  }

  /** Join can hang: one worker, one task without children, nothing unusual.  Join reads the counter
      at 1; the worker then brings it to 0 and notifies nobody; Join's FutexWait(0) now compares
      equal and parks.  (The call asks to sleep while the counter is 0, not while it is not.) */
  lemma JoinCanHang()
    ensures exists s: State :: Reachable(s) && |s.workers| == 1 && s.joiner == Parked && Stuck(s)
  {
    hide Next, Reachable, Scene;
    var t := Task(0, []);
    var s := SubmitScene(t);
    s := JoinScene(s, t);
    s := RunScene(s, t);
    s := DecrementScene(s);
    s := SleepScene(s);
    JoinIsStuckExactlyWhenParkedAtRest(s);
  }

  // ---- The object

  /** Each method is one atomic operation of the pool: of an outside thread c, of worker i, or of the
      thread that calls Join or Shutdown. */
  class StaticThreadPool {
    const tasks: Q.UnboundedBlockingQueue<Task>
    var plannedWorkCounter: nat
    ghost var workers: seq<Worker>
    ghost var clients: seq<Client>
    ghost var joiner: Joiner
    ghost var count: nat
    ghost var submitted: multiset<Task>
    ghost var ran: multiset<Task>
    ghost var rejected: seq<Task>
    ghost var dropped: seq<Task>
    ghost var late: bool
    ghost var falseZero: bool

    ghost function View(): State
      reads this, tasks
    {
      State(tasks.View(), plannedWorkCounter, workers, clients, joiner, count,
            submitted, ran, rejected, dropped, late, falseZero)
    }

    constructor (ghost workers: nat, ghost clients: nat)
      ensures View() == Init(workers, clients) && fresh(tasks)
    {
      tasks := new Q.UnboundedBlockingQueue();
      plannedWorkCounter, count, joiner := 0, 0, NotCalled;
      this.workers := seq(workers, _ => Taking);
      this.clients := seq(clients, _ => Outside);
      submitted, ran, rejected, dropped := multiset{}, multiset{}, [], [];
      late, falseZero := false, false;
    }

    /** Submit, called from outside: planned_work_counter_++. */
    method SubmitPlan(ghost c: nat, task: Task)
      requires Next(View(), Submit(c, task)).Some?
      modifies this
      ensures Some(View()) == Next(old(View()), Submit(c, task))
    {
      plannedWorkCounter := (plannedWorkCounter + 1) % WORD;
      count := count + 1;
      clients := clients[c := Submitting(task)];
      submitted := submitted + Nodes(task);
      late := late || SawZero(joiner);
    }

    /** Submit: tasks_.Put(task), whose result is ignored. */
    method SubmitEnqueue(ghost c: nat, task: Task, ghost w: nat)
      requires Next(View(), SubmitPut(c, w)).Some? && clients[c].task == task
      modifies this, tasks
      ensures Some(View()) == Next(old(View()), SubmitPut(c, w))
    {
      var ok := tasks.TryPut(task, w);
      clients := clients[c := Outside];
      if !ok {
        rejected := rejected + [task];
      }
    }

    /** Submit, called from inside the task of worker i. */
    method ChildPlan(ghost i: nat)
      requires Next(View(), SubmitChild(i)).Some?
      modifies this
      ensures Some(View()) == Next(old(View()), SubmitChild(i))
    {
      plannedWorkCounter := (plannedWorkCounter + 1) % WORD;
      count := count + 1;
      workers := workers[i := Putting(workers[i].task, workers[i].rest[0], workers[i].rest[1..])];
    }

    method ChildEnqueue(ghost i: nat, child: Task, ghost w: nat)
      requires Next(View(), ChildPut(i, w)).Some? && workers[i].child == child
      modifies this, tasks
      ensures Some(View()) == Next(old(View()), ChildPut(i, w))
    {
      var ok := tasks.TryPut(child, w);
      workers := workers[i := Running(workers[i].task, workers[i].rest)];
      if !ok {
        rejected := rejected + [child];
      }
    }

    /** Work: tasks_.Take() and the test of its result. */
    method WorkTake(ghost i: nat) returns (task: Q.Outcome<Task>)
      requires Next(View(), TakeTask(i)).Some?
      modifies this`workers, tasks
      ensures Some(View()) == Next(old(View()), TakeTask(i))
      ensures task == Q.TakeOutcome(old(tasks.View()))
    {
      task := tasks.TryTake(i);
      match task
      case Asleep =>
      case Nothing => workers := workers[i := Exited];
      case Got(t) => workers := workers[i := Running(t, t.children)];
    }

    /** Work: --planned_work_counter_ == 0. */
    method WorkDone(ghost i: nat) returns (notify: bool)
      requires Next(View(), Decrement(i)).Some?
      modifies this
      ensures Some(View()) == Next(old(View()), Decrement(i))
      ensures notify <==> plannedWorkCounter == 0
    {
      plannedWorkCounter := (plannedWorkCounter + WORD - 1) % WORD;
      notify := plannedWorkCounter == 0;
      count := if count > 0 then count - 1 else 0;
      workers := workers[i := if notify then ToNotify else Taking];
    }

    /** Join: the test of its loop. */
    method JoinTest() returns (again: bool)
      requires Next(View(), Load).Some?
      modifies this
      ensures Some(View()) == Next(old(View()), Load)
      ensures again <==> plannedWorkCounter != 0
    {
      again := plannedWorkCounter != 0;
      if again {
        joiner := ToFutex;
      } else {
        joiner := ToClose;
        falseZero := falseZero || count != 0;
      }
    }

    /** Join: FutexWait(0) compares under the kernel lock. */
    method JoinFutexWait() returns (parks: bool)
      requires Next(View(), Check).Some?
      modifies this`joiner
      ensures Some(View()) == Next(old(View()), Check)
      ensures parks <==> plannedWorkCounter == 0
    {
      parks := plannedWorkCounter == 0;
      joiner := if parks then Checked else Loading;
    }

    /** Join: tasks_.Close(). */
    method JoinCloseQueue()
      requires Next(View(), JoinClose).Some?
      modifies this`joiner, tasks
      ensures Some(View()) == Next(old(View()), JoinClose)
    {
      tasks.CloseImpl(false);
      joiner := Joining;
    }

    /** Shutdown: tasks_.Cancel(). */
    method ShutdownCancel()
      requires Next(View(), ShutCall).Some?
      modifies this, tasks
      ensures Some(View()) == Next(old(View()), ShutCall)
    {
      dropped := dropped + tasks.queue;
      tasks.CloseImpl(true);
      joiner := ShutJoining;
    }

    /** Shutdown: the counter is reset once the workers are joined. */
    method ShutdownReset()
      requires Next(View(), ShutStore).Some?
      modifies this
      ensures Some(View()) == Next(old(View()), ShutStore)
    {
      plannedWorkCounter := 0;
      count := 0;
      joiner := ShutReturned;
    }
  }
}
