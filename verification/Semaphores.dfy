/** solutions::Semaphore (tasks/condvar/semaphore/semaphore.hpp): a counter under a mutex with a
    condition variable.

    A critical section is one atomic step.  The condition variable is a set of waiting threads;
    notify_one and spurious wakeups move a thread to `woken`, from where it competes for the mutex
    again with everybody else and re-tests the counter. */
module Semaphores {
  import opened Runs
  import opened Counting
  import opened Calls

  const SIZE := 0x1_0000_0000_0000_0000 // the counter is a size_t

  datatype Sem = Sem(counter: nat, waiting: set<nat>, woken: set<nat>)

  function Wrap(n: nat): nat {
    n % SIZE
  }

  function New(initial: nat): Sem {
    Sem(Wrap(initial), {}, {})
  }

  /** One pass of thread t through Acquire's loop: it takes a permit or (again) waits.
      Not possible while t sleeps. */
  function Attempt(s: Sem, t: nat): Option<Sem> {
    if t in s.waiting then None
    else if s.counter > 0 then Some(Sem(s.counter - 1, s.waiting, s.woken - {t}))
    else Some(Sem(0, s.waiting + {t}, s.woken - {t}))
  }

  /** Release; w is the thread notify_one picks, if anybody waits. */
  function Release(s: Sem, w: nat): Option<Sem> {
    var c := Wrap(s.counter + 1);
    if c == 0 || s.waiting == {} then Some(s.(counter := c))
    else if w in s.waiting then Some(Sem(c, s.waiting - {w}, s.woken + {w}))
    else None
  }

  function Spurious(s: Sem, w: nat): Option<Sem> {
    if w in s.waiting then Some(s.(waiting := s.waiting - {w}, woken := s.woken + {w})) else None
  }

  /** No permit is stranded: while a thread sleeps un-notified, every free permit is matched by a
      woken thread that has yet to re-test the counter. */
  ghost predicate Unstranded(s: Sem) {
    s.waiting !! s.woken && (s.waiting != {} ==> s.counter <= |s.woken|)
  }

  lemma AttemptKeeps(s: Sem, t: nat)
    requires Unstranded(s) && Attempt(s, t).Some?
    ensures Unstranded(Attempt(s, t).value)
  {
    if t in s.woken {
      assert s.woken == (s.woken - {t}) + {t};
    } else {
      assert s.woken - {t} == s.woken;
    }
  }

  lemma ReleaseKeeps(s: Sem, w: nat)
    requires Unstranded(s) && Release(s, w).Some?
    ensures Unstranded(Release(s, w).value)
  {
    if w in s.waiting {
      assert |s.woken + {w}| == |s.woken| + 1;
    }
  }

  lemma SpuriousKeeps(s: Sem, w: nat)
    requires Unstranded(s) && Spurious(s, w).Some?
    ensures Unstranded(Spurious(s, w).value)
  {
    if w in s.waiting {
      assert |s.woken + {w}| == |s.woken| + 1;
    }
  }

  /** Everybody inside Acquire who is not about to test the counter for the first time. */
  ghost function Members(s: Sem): set<nat> {
    s.waiting + s.woken
  }

  lemma AttemptMembers(s: Sem, t: nat)
    requires Attempt(s, t).Some?
    ensures var m := Attempt(s, t).value;
      if t in m.waiting then Members(m) == Members(s) + {t} else Members(m) == Members(s) - {t}
  {}

  lemma ReleaseMembers(s: Sem, w: nat)
    requires Release(s, w).Some?
    ensures Members(Release(s, w).value) == Members(s)
  {}

  lemma SpuriousMembers(s: Sem, w: nat)
    requires Spurious(s, w).Some?
    ensures Members(Spurious(s, w).value) == Members(s)
  {}

  // ---- Whole runs of one semaphore: calls, critical sections, sleep, returns

  datatype Op = AcquireOp | ReleaseOp

  datatype Result = Void

  datatype State = State(sem: Sem, initial: nat, book: Book<Op, Result>)

  datatype Action =
    | Call(t: nat, op: Op)
    | Section(t: nat, w: nat)  // one critical section of the call t is in; w is whom it notifies
    | Leave(t: nat)            // the call returns
    | Wakeup(w: nat)           // spurious

  function Next(s: State, a: Action): Option<State> {
    match a
    case Call(t, op) => if IsOutside(s.book, t) then Some(s.(book := DoBegin(s.book, t, op))) else None
    case Section(t, w) =>
      if !IsBefore(s.book, t) then None
      else if s.book.places[t].op == AcquireOp then
        (match Attempt(s.sem, t)
         case None => None
         case Some(m) => Some(s.(sem := m, book := if s.sem.counter > 0 then DoEffect(s.book, t, Void) else s.book)))
      else
        (match Release(s.sem, w)
         case None => None
         case Some(m) => Some(s.(sem := m, book := DoEffect(s.book, t, Void))))
    case Leave(t) => if IsAfter(s.book, t) then Some(s.(book := DoReturn(s.book, t))) else None
    case Wakeup(w) => (match Spurious(s.sem, w) case None => None case Some(m) => Some(s.(sem := m)))
  }

  function Init(initial: nat, threads: nat): State {
    State(New(initial), initial, Open(threads))
  }

  ghost predicate Reachable(s: State) {
    exists n: nat, m: nat, acts :: n < SIZE && Exec(Next, Init(n, m), acts) == Some(s)
  }

  /** The sequential object: a number of permits, unbounded, that Acquire waits to be positive. */
  function Apply(permits: nat, op: Op): Option<(nat, Result)> {
    match op
    case AcquireOp => if permits > 0 then Some((permits - 1, Void)) else None
    case ReleaseOp => Some((permits + 1, Void))
  }

  /** How many calls of op have taken effect. */
  function HowMany(h: seq<Done<Op, Result>>, op: Op): nat {
    if h == [] then 0 else HowMany(h[..|h| - 1], op) + if h[|h| - 1].op == op then 1 else 0
  }

  ghost predicate AcquirerInside(s: State, t: nat) {
    IsBefore(s.book, t) && s.book.places[t].op == AcquireOp
  }

  /** Who sleeps, or has been woken, is inside an Acquire without effect as yet. */
  ghost predicate Sleepers(s: State) {
    forall t :: t in Members(s.sem) ==> AcquirerInside(s, t)
  }

  /** The book describes a history of the sequential object that leaves the counter's value, modulo 2^64. */
  ghost predicate Sound(s: State, permits: nat) {
    Kept(s.book) && Legal(Apply, s.initial, s.book, permits) && s.sem.counter == Wrap(permits)
  }

  ghost predicate Inv(s: State) {
    Unstranded(s.sem) && Sleepers(s) && exists permits :: Sound(s, permits)
  }

  lemma UnstrandedStep(s: State, a: Action)
    requires Unstranded(s.sem) && Next(s, a).Some?
    ensures Unstranded(Next(s, a).value.sem)
  {
    match a
    case Section(t, w) =>
      if s.book.places[t].op == AcquireOp { AttemptKeeps(s.sem, t); } else { ReleaseKeeps(s.sem, w); }
    case Wakeup(w) => SpuriousKeeps(s.sem, w);
    case _ =>
  }

  lemma SleepersStep(s: State, a: Action)
    requires Sleepers(s) && Next(s, a).Some?
    ensures Sleepers(Next(s, a).value)
  {
    var s' := Next(s, a).value;
    if a.Wakeup? {
      SpuriousMembers(s.sem, a.w);
    } else {
      SleepersMove(s, a);
      hide Next, Members;
      forall u | u in Members(s'.sem) ensures AcquirerInside(s', u) {
        if u != a.t {
          assert AcquirerInside(s, u);
        }
      }
    }
  }

  lemma SleepersMove(s: State, a: Action)
    requires Sleepers(s) && Next(s, a).Some? && !a.Wakeup?
    ensures var s' := Next(s, a).value;
      && a.t < |s.book.places| == |s'.book.places|
      && s'.book.places == s.book.places[a.t := s'.book.places[a.t]]
      && Members(s'.sem) <= Members(s.sem) + {a.t}
      && (a.t in Members(s'.sem) ==> AcquirerInside(s', a.t))
  {
    if a.t in Members(s.sem) {
      assert AcquirerInside(s, a.t);
    }
  }

  lemma Wrapping(balance: nat)
    ensures Wrap(balance) > 0 ==> balance > 0 && Wrap(balance - 1) == Wrap(balance) - 1
    ensures Wrap(balance + 1) == Wrap(Wrap(balance) + 1)
  {}

  /** A critical section that ends its call does what the sequential object does, at that moment,
      even when the counter has wrapped; one that puts its thread to sleep does nothing. */
  lemma SectionEffect(s: State, t: nat, w: nat, permits: nat) returns (permits': nat)
    requires s.sem.counter == Wrap(permits) && Next(s, Section(t, w)).Some?
    ensures IsBefore(s.book, t)
    ensures var s' := Next(s, Section(t, w)).value;
      && s'.initial == s.initial && s'.sem.counter == Wrap(permits')
      && if s'.book == s.book then permits' == permits
         else s'.book == DoEffect(s.book, t, Void) && Apply(permits, s.book.places[t].op) == Some((permits', Void))
  {
    Wrapping(permits);
    hide Wrap;
    if s.book.places[t].op == ReleaseOp {
      permits' := permits + 1;
    } else {
      permits' := if s.sem.counter > 0 then permits - 1 else permits;
    }
  }

  lemma SoundStep(s: State, a: Action, permits: nat) returns (permits': nat)
    requires Sound(s, permits) && Next(s, a).Some?
    ensures Sound(Next(s, a).value, permits')
  {
    permits' := permits;
    match a
    case Call(t, op) =>
      BeginKeeps(s.book, t, op);
      NoEffectStaysLegal(Apply, s.initial, s.book, permits, Begin(t, op));
    case Section(t, w) =>
      permits' := SectionEffect(s, t, w, permits);
      var s' := Next(s, a).value;
      hide Next, Kept, Apply, Legal;
      if s'.book != s.book {
        EffectKeeps(s.book, t, Void);
        EffectStaysLegal(Apply, s.initial, s.book, permits, t, Void, permits');
      }
    case Leave(t) =>
      ReturnKeeps(s.book, t);
      NoEffectStaysLegal(Apply, s.initial, s.book, permits, Return(s.book.places[t].call, s.book.places[t].res));
    case Wakeup(_) =>
  }

  lemma InvStep(s: State, a: Action)
    requires Inv(s) && Next(s, a).Some?
    ensures Inv(Next(s, a).value)
  {
    UnstrandedStep(s, a);
    SleepersStep(s, a);
    hide Next, Unstranded, Sleepers, Sound;
    var permits :| Sound(s, permits);
    var permits' := SoundStep(s, a, permits);
  }

  lemma ReachableInv(s: State)
    requires Reachable(s)
    ensures Inv(s)
  {
    var n: nat, m: nat, acts :| n < SIZE && Exec(Next, Init(n, m), acts) == Some(s);
    OpenIsKept<Op, Result>(m);
    assert Sound(Init(n, m), n);
    forall x, a | Inv(x) && Next(x, a).Some? ensures Inv(Next(x, a).value) {
      InvStep(x, a);
    }
    hide Next, Sound;
    Invariant(Next, Inv, Init(n, m), acts);
  }

  // ---- What the semaphore promises

  lemma {:induction false} Balance(initial: nat, h: seq<Done<Op, Result>>)
    requires Replay<nat, Op, Result>(Apply, initial, h).Some?
    ensures Replay<nat, Op, Result>(Apply, initial, h).value == initial + HowMany(h, ReleaseOp) - HowMany(h, AcquireOp)
    decreases |h|
  {
    if h != [] {
      Balance(initial, h[..|h| - 1]);
    }
  }

  /** The permits are initial + releases - acquires as long as that fits a size_t, and only then;
      never were more permits taken than given, not even when the counter has wrapped. */
  lemma PermitsAreConserved(s: State)
    requires Reachable(s)
    ensures var h := Effects(s.book.trace);
      var balance := s.initial + HowMany(h, ReleaseOp) - HowMany(h, AcquireOp);
      balance >= 0 && (s.sem.counter == balance <==> balance < SIZE)
  {
    ReachableInv(s);
    var permits :| Sound(s, permits);
    Balance(s.initial, Effects(s.book.trace));
  }

  /** Linearizability.  In every reachable state the effects of the calls, in the order in which they
      occurred, are a history of an atomic counter whose value is the real one's modulo 2^64; every
      call took effect at most once, after its beginning, every returned call before its return;
      and an Acquire that still waits has taken nothing. */
  lemma Linearizable(s: State)
    requires Reachable(s)
    ensures var permits := Replay<nat, Op, Result>(Apply, s.initial, Effects(s.book.trace));
      permits.Some? && s.sem.counter == permits.value % SIZE
    ensures EffectsOnce(s.book.trace) && ReturnsOnce(s.book.trace)
    ensures forall t | t in Members(s.sem) :: NoEffectYet(s.book, t)
  {
    ReachableInv(s);
    var permits :| Sound(s, permits);
    forall t | t in Members(s.sem) ensures NoEffectYet(s.book, t) {
      assert AcquirerInside(s, t) && PlaceOk(s.book, t);
    }
  }

  /** No free permit beside a sleeping thread without a woken thread to take it: there are as many
      woken threads as permits, and the next of them to run takes one and can return. */
  lemma NoPermitIsStranded(s: State)
    requires Reachable(s) && s.sem.waiting != {}
    ensures s.sem.counter <= |s.sem.woken|
    ensures s.sem.counter > 0 ==>
      exists t, w :: t in s.sem.woken && Next(s, Section(t, w)).Some? && IsAfter(Next(s, Section(t, w)).value.book, t)
  {
    ReachableInv(s);
    if s.sem.counter > 0 {
      assert s.sem.woken != {};
      var t :| t in s.sem.woken;
      assert t in Members(s.sem) && AcquirerInside(s, t);
      assert Next(s, Section(t, 0)).Some?;
      assert IsAfter(Next(s, Section(t, 0)).value.book, t);
    }
  }

  /** An Acquire that is awake takes a permit if there is one, at once, and otherwise sleeps; it does
      not spin, and it does not return without a permit. */
  lemma AcquireSleepsExactlyWithoutPermit(s: State, t: nat, w: nat)
    requires Reachable(s) && AcquirerInside(s, t)
    ensures Next(s, Section(t, w)).Some? <==> t !in s.sem.waiting
    ensures t !in s.sem.waiting ==> var s' := Next(s, Section(t, w)).value;
      if s.sem.counter > 0 then IsAfter(s'.book, t) && t !in Members(s'.sem) && s'.sem.counter == s.sem.counter - 1
      else s'.book == s.book && t in s'.sem.waiting && t !in s'.sem.woken && s'.sem.counter == 0
  {
    ReachableInv(s);
  }

  /** How many threads a run can have woken: one for each Release section and each spurious wakeup. */
  function Wakes(s: State, acts: seq<Action>): nat
    decreases |acts|
  {
    if acts == [] || Next(s, acts[0]).None? then 0
    else (if Wakeful(s, acts[0]) then 1 else 0) + Wakes(Next(s, acts[0]).value, acts[1..])
  }

  predicate Wakeful(s: State, a: Action) {
    a.Wakeup? || (a.Section? && IsBefore(s.book, a.t) && s.book.places[a.t].op == ReleaseOp)
  }

  lemma WaitersLeave(s: State, a: Action)
    requires Next(s, a).Some?
    ensures var before, after := s.sem.waiting, Next(s, a).value.sem.waiting;
      if Wakeful(s, a) then before <= after + {a.w} else before <= after
  {}

  /** A Release wakes at most one waiting thread, and an Acquire none. */
  lemma {:induction false} ReleaseWakesNoMore(s: State, acts: seq<Action>, s': State)
    requires Exec(Next, s, acts) == Some(s')
    ensures |s.sem.waiting| <= |s'.sem.waiting| + Wakes(s, acts)
    decreases |acts|
  {
    if acts != [] {
      var a, s1 := acts[0], Next(s, acts[0]).value;
      WaitersLeave(s, a);
      var w := if Wakeful(s, a) then {a.w} else {};
      hide Next, Wakeful;
      ReleaseWakesNoMore(s1, acts[1..], s');
      Smaller(s.sem.waiting, s1.sem.waiting + w);
    }
  }

  /** The semaphore object; every method is one critical section. */
  class Semaphore {
    var counter: nat
    ghost var waiting: set<nat>
    ghost var woken: set<nat>

    ghost function View(): Sem
      reads this
    {
      Sem(counter, waiting, woken)
    }

    constructor (initial: nat)
      requires initial < SIZE
      ensures View() == New(initial)
    {
      counter := initial;
      waiting, woken := {}, {};
    }

    /** From taking the mutex to leaving it, by returning from Acquire or by waiting. */
    method TryAcquire(ghost t: nat) returns (acquired: bool)
      requires Attempt(View(), t).Some?
      modifies this
      ensures Some(View()) == Attempt(old(View()), t)
      ensures acquired <==> t !in waiting
    {
      woken := woken - {t};
      if counter <= 0 {
        waiting := waiting + {t};
        acquired := false;
      } else {
        counter := counter - 1;
        acquired := true;
      }
    }

    method ReleaseOne(ghost w: nat)
      requires Release(View(), w).Some?
      modifies this
      ensures Some(View()) == Release(old(View()), w)
    {
      counter := (counter + 1) % SIZE;
      if counter > 0 {
        if waiting != {} {
          waiting, woken := waiting - {w}, woken + {w};
        }
      }
    }
  }
}
