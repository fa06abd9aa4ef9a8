/** stdlike::Mutex (tasks/mutex/mutex/mutex.hpp): the three-state lock over a futex.

    The word is 0 (free), 1 (locked) or 2 (locked, somebody may sleep).  The kernel part follows
    tasks/mutex/mutex/readme.md:27-47: a thread in FutexWait takes the kernel lock, compares the
    word, and only then parks; a store may fall between the comparison and the parking, a wake
    may not.  Woken or mismatched threads go round the loop of atomic wait again. */
module FutexMutex {
  import opened Runs
  import opened Counting

  const WORD := 0x1_0000_0000 // the flag is a uint32_t

  /** Where a thread stands: the next atomic operation it is about to perform. */
  datatype Pc =
    | Idle        // outside the mutex; may start Lock
    | ToExchange  // slow path of Lock, about to exchange(2)
    | ToLoad      // in wait(2), about to load the word
    | ToFutex     // in wait(2), loaded a 2, about to enter FutexWait(2)
    | Checked     // in the kernel: kernel lock held, word compared equal, not yet parked
    | Parked      // asleep in the kernel queue
    | Critical    // Lock has returned
    | ToStore     // in Unlock, fetch_sub did not return 1, about to store(0)
    | ToNotify    // in Unlock, stored 0, about to notify_one

  datatype State = State(flag: nat, pc: seq<Pc>)

  datatype Action =
    | Cas(t: nat)              // compare_exchange_strong(0, 1)
    | Exchange(t: nat)         // exchange(2)
    | Load(t: nat)             // the load of wait(2)
    | Check(t: nat)            // FutexWait takes the kernel lock and compares
    | Park(t: nat)             // FutexWait queues the thread and drops the kernel lock
    | Spurious(t: nat)         // FutexWait returns although nobody woke the thread
    | FetchSub(t: nat)
    | StoreZero(t: nat)
    | NotifyOne(t: nat, w: nat) // the kernel wakes w, if anybody is parked

  predicate KernelFree(s: State) {
    forall i :: 0 <= i < |s.pc| ==> s.pc[i] != Checked
  }

  predicate NoneParked(s: State) {
    forall i :: 0 <= i < |s.pc| ==> s.pc[i] != Parked
  }

  function Go(s: State, t: nat, pc: Pc): State
    requires t < |s.pc|
  {
    s.(pc := s.pc[t := pc])
  }

  predicate At(s: State, t: nat, pc: Pc) {
    t < |s.pc| && s.pc[t] == pc
  }

  function Next(s: State, a: Action): Option<State> {
    match a
    case Cas(t) =>
      if !At(s, t, Idle) then None
      else if s.flag == 0 then Some(Go(s, t, Critical).(flag := 1))
      else if s.flag != 2 then Some(Go(s, t, ToExchange))
      else Some(Go(s, t, ToLoad))
    case Exchange(t) =>
      if !At(s, t, ToExchange) then None
      else Some(Go(s, t, if s.flag != 0 then ToLoad else Critical).(flag := 2))
    case Load(t) =>
      if !At(s, t, ToLoad) then None
      else Some(Go(s, t, if s.flag == 2 then ToFutex else ToExchange))
    case Check(t) =>
      if !At(s, t, ToFutex) || !KernelFree(s) then None
      else Some(Go(s, t, if s.flag == 2 then Checked else ToLoad))
    case Park(t) =>
      if !At(s, t, Checked) then None else Some(Go(s, t, Parked))
    case Spurious(t) =>
      if !At(s, t, Parked) then None else Some(Go(s, t, ToLoad))
    case FetchSub(t) =>
      if !At(s, t, Critical) then None
      else Some(Go(s, t, if s.flag != 1 then ToStore else Idle).(flag := (s.flag + WORD - 1) % WORD))
    case StoreZero(t) =>
      if !At(s, t, ToStore) then None else Some(Go(s, t, ToNotify).(flag := 0))
    case NotifyOne(t, w) =>
      if !At(s, t, ToNotify) || !KernelFree(s) then None
      else if At(s, w, Parked) then Some(Go(Go(s, w, ToLoad), t, Idle))
      else if NoneParked(s) then Some(Go(s, t, Idle))
      else None
  }

  function Init(threads: nat): State {
    State(0, seq(threads, _ => Idle))
  }

  ghost predicate Reachable(s: State) {
    exists n: nat, acts :: Exec(Next, Init(n), acts) == Some(s)
  }

  /** t has acquired the mutex and has not yet performed the releasing write. */
  predicate Owns(pc: Pc) {
    pc == Critical || pc == ToStore
  }

  /** t sleeps, or has decided to. */
  predicate Asleep(pc: Pc) {
    pc == Parked || pc == Checked
  }

  /** t will wake a sleeper, or will itself exchange(2) before it can sleep again. */
  predicate Rescuer(pc: Pc) {
    pc == ToStore || pc == ToNotify || pc == ToExchange || pc == ToLoad || pc == ToFutex
  }

  /** The thread that owns the mutex, if any. */
  ghost predicate OwnedBy(s: State, o: Option<nat>) {
    forall i :: 0 <= i < |s.pc| ==> (Owns(s.pc[i]) <==> o == Some(i))
  }

  /** The word is 0 exactly while nobody owns the mutex, and never more than one thread does. */
  ghost predicate Exclusive(s: State) {
    && s.flag <= 2
    && if s.flag == 0 then OwnedBy(s, None) else exists o: nat :: o < |s.pc| && OwnedBy(s, Some(o))
  }

  ghost predicate NoLostWakeup(s: State) {
    (exists i :: 0 <= i < |s.pc| && Asleep(s.pc[i])) ==>
      s.flag == 2 || exists j :: 0 <= j < |s.pc| && Rescuer(s.pc[j])
  }

  ghost predicate KernelLock(s: State) {
    forall i, j :: 0 <= i < j < |s.pc| ==> !(s.pc[i] == Checked && s.pc[j] == Checked)
  }

  ghost predicate Inv(s: State) {
    Exclusive(s) && NoLostWakeup(s) && KernelLock(s)
  }

  /** A step changes who owns the mutex only for the thread that takes it. */
  lemma OwnershipStep(s: State, a: Action)
    requires Exclusive(s) && Next(s, a).Some?
    ensures var s' := Next(s, a).value;
      && |s'.pc| == |s.pc| && a.t < |s.pc|
      && (forall i :: 0 <= i < |s.pc| && i != a.t ==> (Owns(s'.pc[i]) <==> Owns(s.pc[i])))
      && (Owns(s'.pc[a.t]) && !Owns(s.pc[a.t]) ==> s.flag == 0 && s'.flag != 0)
      && (Owns(s'.pc[a.t]) && Owns(s.pc[a.t]) ==> s'.flag != 0)
      && (!Owns(s'.pc[a.t]) && Owns(s.pc[a.t]) ==> s'.flag == 0)
      && (!Owns(s'.pc[a.t]) && !Owns(s.pc[a.t]) ==> (s'.flag == 0 <==> s.flag == 0))
      && s'.flag <= 2
  {
    if Owns(s.pc[a.t]) {
      var o: nat :| o < |s.pc| && OwnedBy(s, Some(o));
    }
  }

  lemma ExclusiveStep(s: State, a: Action)
    requires Exclusive(s) && Next(s, a).Some?
    ensures Exclusive(Next(s, a).value)
  {
    OwnershipStep(s, a);
    hide Next, Owns;
    var s' := Next(s, a).value;
    if s'.flag != 0 {
      if Owns(s'.pc[a.t]) {
        assert OwnedBy(s', Some(a.t));
      } else {
        var o: nat :| o < |s.pc| && OwnedBy(s, Some(o));
        assert OwnedBy(s', Some(o));
      }
    }
  }

  lemma NoLostWakeupStep(s: State, a: Action)
    requires Exclusive(s) && NoLostWakeup(s) && Next(s, a).Some?
    ensures NoLostWakeup(Next(s, a).value)
  {
    var s' := Next(s, a).value;
    if i :| 0 <= i < |s'.pc| && Asleep(s'.pc[i]) {
      if Rescuer(s'.pc[a.t]) || s'.flag == 2 {
      } else if a.NotifyOne? {
        assert At(s, i, Parked);
        assert Rescuer(s'.pc[a.w]);
      } else {
        assert Asleep(s.pc[i]);
        var j :| 0 <= j < |s.pc| && Rescuer(s.pc[j]);
        assert Rescuer(s'.pc[j]);
      }
    }
  }

  lemma KernelLockStep(s: State, a: Action)
    requires KernelLock(s) && Next(s, a).Some?
    ensures KernelLock(Next(s, a).value)
  {}

  lemma InvStep(s: State, a: Action)
    requires Inv(s) && Next(s, a).Some?
    ensures Inv(Next(s, a).value)
  {
    KernelLockStep(s, a);
    ExclusiveStep(s, a);
    NoLostWakeupStep(s, a);
  }

  lemma ReachableInv(s: State)
    requires Reachable(s)
    ensures Inv(s)
  {
    var n: nat, acts :| Exec(Next, Init(n), acts) == Some(s);
    forall x, a | Inv(x) && Next(x, a).Some? ensures Inv(Next(x, a).value) {
      InvStep(x, a);
    }
    Invariant(Next, Inv, Init(n), acts);
  }

  /** Mutual exclusion; the word is 0 exactly while the mutex has no owner; fetch_sub never underflows. */
  lemma MutualExclusion(s: State)
    requires Reachable(s)
    ensures forall i, j :: 0 <= i < j < |s.pc| ==> !(Owns(s.pc[i]) && Owns(s.pc[j]))
    ensures s.flag == 0 <==> forall i :: 0 <= i < |s.pc| ==> !Owns(s.pc[i])
    ensures forall i :: 0 <= i < |s.pc| && s.pc[i] == Critical ==> 1 <= s.flag <= 2
  {
    ReachableInv(s);
  }

  /** Whenever a thread sleeps or is about to, either a rescuer is on its way, or the mutex is
      owned by a thread whose fetch_sub will see the 2 and so will notify. */
  lemma SleeperIsCovered(s: State, i: nat)
    requires Reachable(s) && i < |s.pc| && Asleep(s.pc[i])
    ensures || (exists j :: 0 <= j < |s.pc| && Rescuer(s.pc[j]))
            || (exists o: nat :: At(s, o, Critical) && Next(s, FetchSub(o)).Some? &&
                  At(Next(s, FetchSub(o)).value, o, ToStore))
  {
    ReachableInv(s);
    if !exists j :: 0 <= j < |s.pc| && Rescuer(s.pc[j]) {
      assert s.flag == 2;
      var o: nat :| o < |s.pc| && OwnedBy(s, Some(o));
      assert Owns(s.pc[o]);
      assert At(s, o, Critical);
    }
  }

  /** When every thread is idle or parked, nobody is parked and the word is 0. */
  lemma NobodyIsLeftBehind(s: State)
    requires Reachable(s)
    requires forall i :: 0 <= i < |s.pc| ==> s.pc[i] == Idle || s.pc[i] == Parked
    ensures forall i :: 0 <= i < |s.pc| ==> s.pc[i] == Idle
    ensures s.flag == 0
  {
    ReachableInv(s);
    assert s.flag == 0;
    if i :| 0 <= i < |s.pc| && s.pc[i] == Parked {
      SleeperIsCovered(s, i);
    }
  }

  /** Deadlock freedom: unless all threads are idle, a thread inside the mutex can step without
      anybody starting a new Lock and without a spurious wakeup. */
  lemma Progress(s: State)
    requires Reachable(s)
    requires exists i :: 0 <= i < |s.pc| && s.pc[i] != Idle
    ensures exists a: Action :: !a.Cas? && !a.Spurious? && Next(s, a).Some?
  {
    if !KernelFree(s) {
      var i: nat :| i < |s.pc| && s.pc[i] == Checked;
      assert Next(s, Park(i)).Some?;
    } else if j: nat :| j < |s.pc| && s.pc[j] != Idle && s.pc[j] != Parked {
      match s.pc[j]
      case ToExchange => assert Next(s, Exchange(j)).Some?;
      case ToLoad => assert Next(s, Load(j)).Some?;
      case ToFutex => assert Next(s, Check(j)).Some?;
      case Critical => assert Next(s, FetchSub(j)).Some?;
      case ToStore => assert Next(s, StoreZero(j)).Some?;
      case ToNotify =>
        if NoneParked(s) {
          assert Next(s, NotifyOne(j, j)).Some?;
        } else {
          var w: nat :| w < |s.pc| && s.pc[w] == Parked;
          assert Next(s, NotifyOne(j, w)).Some?;
        }
    } else {
      NobodyIsLeftBehind(s);
    }
  }

  /** The fast path: a Lock and Unlock that nobody disturbs take one compare_exchange and one
      fetch_sub, enter no kernel, and leave the mutex as it was. */
  lemma UncontendedStaysInUserSpace(s: State, t: nat)
    requires Reachable(s) && t < |s.pc|
    requires forall i :: 0 <= i < |s.pc| ==> s.pc[i] == Idle
    ensures Exec(Next, s, [Cas(t), FetchSub(t)]) == Some(s)
  {
    NobodyIsLeftBehind(s);
    var s1 := Next(s, Cas(t)).value;
    var s2 := Next(s1, FetchSub(t)).value;
    assert s2.pc == s.pc;
    assert [Cas(t), FetchSub(t)][1..] == [FetchSub(t)];
    assert Exec(Next, s1, [FetchSub(t)]) == Some(s2);
  }

  /** Unlock needs nobody: from every state of its owner, one, two or three steps end it, whatever the
      others are doing, and leave the word at 0. */
  lemma UnlockReturns(s: State, t: nat) returns (w: nat)
    requires Reachable(s) && At(s, t, Critical) && KernelFree(s)
    ensures s.flag == 1 ==> Exec(Next, s, [FetchSub(t)]) == Some(State(0, s.pc[t := Idle]))
    ensures var last := State(0, if At(s, w, Parked) then s.pc[w := ToLoad][t := Idle] else s.pc[t := Idle]);
      s.flag == 2 ==> Exec(Next, s, [FetchSub(t)] + ([StoreZero(t)] + [NotifyOne(t, w)])) == Some(last)
    ensures At(s, w, Parked) || NoneParked(s)
  {
    ReachableInv(s);
    w := t;
    if !NoneParked(s) {
      w :| w < |s.pc| && s.pc[w] == Parked;
    }
    var last := State(0, if At(s, w, Parked) then s.pc[w := ToLoad][t := Idle] else s.pc[t := Idle]);
    var s1, s2 := State(1, s.pc[t := ToStore]), State(0, s.pc[t := ToNotify]);
    if s.flag == 1 {
      First(Next, s, FetchSub(t), []);
      assert [FetchSub(t)] + [] == [FetchSub(t)];
    } else {
      assert s.flag == 2 by { assert Owns(s.pc[t]); }
      assert Next(s, FetchSub(t)) == Some(s1);
      assert Next(s1, StoreZero(t)) == Some(s2) by { assert s1.pc[t := ToNotify] == s2.pc; }
      NotifyEnds(s, s2, t, w, last);
      hide Next, Inv, Reachable;
      Nothing(Next, last);
      First(Next, s2, NotifyOne(t, w), []);
      assert [NotifyOne(t, w)] + [] == [NotifyOne(t, w)];
      First(Next, s1, StoreZero(t), [NotifyOne(t, w)]);
      First(Next, s, FetchSub(t), [StoreZero(t)] + [NotifyOne(t, w)]);
    }
  }

  lemma NotifyEnds(s: State, s2: State, t: nat, w: nat, last: State)
    requires At(s, t, Critical) && s2 == State(0, s.pc[t := ToNotify]) && KernelFree(s)
    requires At(s, w, Parked) || NoneParked(s)
    requires last == State(0, if At(s, w, Parked) then s.pc[w := ToLoad][t := Idle] else s.pc[t := Idle])
    ensures Next(s2, NotifyOne(t, w)) == Some(last)
  {
    assert KernelFree(s2);
    if At(s, w, Parked) {
      assert s2.pc[w := ToLoad][t := Idle] == last.pc;
    } else {
      assert NoneParked(s2) && s2.pc[t := Idle] == last.pc;
    }
  }

  /** Hand-over: from any state where the owner t and a sleeper w are the only busy threads (others
      may sleep too), t's Unlock followed by w's own steps puts w into the critical section. */
  lemma UnlockHandsOver(s: State, t: nat, w: nat)
    requires Reachable(s) && At(s, t, Critical) && At(s, w, Parked)
    requires forall i :: 0 <= i < |s.pc| && i != t ==> s.pc[i] == Idle || s.pc[i] == Parked
    ensures var acts := [FetchSub(t), StoreZero(t), NotifyOne(t, w), Load(w), Exchange(w)];
            Exec(Next, s, acts) == Some(State(2, s.pc[w := Critical][t := Idle]))
  {
    ReachableInv(s);
    SleeperIsCovered(s, w);
    var s1 := State(1, s.pc[t := ToStore]);
    var s2 := State(0, s.pc[t := ToNotify]);
    var s3 := State(0, s.pc[w := ToLoad][t := Idle]);
    var s4 := State(0, s.pc[w := ToExchange][t := Idle]);
    var s5 := State(2, s.pc[w := Critical][t := Idle]);
    assert Next(s, FetchSub(t)) == Some(s1);
    assert Next(s1, StoreZero(t)) == Some(s2) by { assert s1.pc[t := ToNotify] == s2.pc; }
    assert Next(s2, NotifyOne(t, w)) == Some(s3) by { assert s2.pc[w := ToLoad][t := Idle] == s3.pc; }
    assert Next(s3, Load(w)) == Some(s4) by { assert s3.pc[w := ToExchange] == s4.pc; }
    assert Next(s4, Exchange(w)) == Some(s5) by { assert s4.pc[w := Critical] == s5.pc; }
    hide Next;
    First(Next, s4, Exchange(w), []);
    First(Next, s3, Load(w), [Exchange(w)]);
    First(Next, s2, NotifyOne(t, w), [Load(w), Exchange(w)]);
    First(Next, s1, StoreZero(t), [NotifyOne(t, w), Load(w), Exchange(w)]);
    First(Next, s, FetchSub(t), [StoreZero(t), NotifyOne(t, w), Load(w), Exchange(w)]);
    Unroll(FetchSub(t), StoreZero(t), NotifyOne(t, w), Load(w), Exchange(w));
  }

  lemma Unroll(a: Action, b: Action, c: Action, d: Action, e: Action)
    ensures [a, b, c, d, e] == [a] + [b, c, d, e] && [b, c, d, e] == [b] + [c, d, e]
    ensures [c, d, e] == [c] + [d, e] && [d, e] == [d] + [e] && [e] == [e] + []
  {}

  // ---- Blocking: who cannot have the mutex sleeps, and is woken one at a time

  /** A Lock that finds the mutex taken marks it contended and goes to sleep; from every place on
      its way there the remaining steps are these. */
  lemma ContendedLockSleeps(s: State, t: nat)
    requires Reachable(s) && t < |s.pc| && s.flag != 0 && KernelFree(s)
    ensures var asleep := Some(State(2, s.pc[t := Parked]));
      && (s.pc[t] == Idle && s.flag == 1 ==>
            Exec(Next, s, [Cas(t)] + ([Exchange(t)] + ([Load(t)] + ([Check(t)] + [Park(t)])))) == asleep)
      && (s.pc[t] == Idle && s.flag == 2 ==> Exec(Next, s, [Cas(t)] + ([Load(t)] + ([Check(t)] + [Park(t)]))) == asleep)
      && (s.pc[t] == ToExchange ==> Exec(Next, s, [Exchange(t)] + ([Load(t)] + ([Check(t)] + [Park(t)]))) == asleep)
      && (s.pc[t] == ToLoad && s.flag == 2 ==> Exec(Next, s, [Load(t)] + ([Check(t)] + [Park(t)])) == asleep)
      && (s.pc[t] == ToFutex && s.flag == 2 ==> Exec(Next, s, [Check(t)] + [Park(t)]) == asleep)
  {
    ReachableInv(s);
    LoadSleeps(State(2, s.pc[t := ToLoad]), t);
    assert s.pc[t := ToLoad][t := Parked] == s.pc[t := Parked];
    if s.pc[t] == Idle && s.flag == 1 {
      var s1 := Go(s, t, ToExchange);
      assert Next(s, Cas(t)) == Some(s1) && Next(s1, Exchange(t)) == Some(State(2, s.pc[t := ToLoad])) by {
        assert s1.pc[t := ToLoad] == s.pc[t := ToLoad];
      }
      First(Next, s, Cas(t), [Exchange(t)] + ([Load(t)] + ([Check(t)] + [Park(t)])));
      First(Next, s1, Exchange(t), [Load(t)] + ([Check(t)] + [Park(t)]));
    }
    if s.pc[t] == Idle && s.flag == 2 {
      First(Next, s, Cas(t), [Load(t)] + ([Check(t)] + [Park(t)]));
    }
    if s.pc[t] == ToExchange {
      First(Next, s, Exchange(t), [Load(t)] + ([Check(t)] + [Park(t)]));
    }
    if (s.pc[t] == ToLoad || s.pc[t] == ToFutex) && s.flag == 2 {
      LoadSleeps(s, t);
    }
  }

  lemma LoadSleeps(s: State, t: nat)
    requires t < |s.pc| && s.flag == 2 && KernelFree(s)
    ensures var asleep := Some(State(2, s.pc[t := Parked]));
      && (s.pc[t] == ToLoad ==> Exec(Next, s, [Load(t)] + ([Check(t)] + [Park(t)])) == asleep)
      && (s.pc[t] == ToFutex ==> Exec(Next, s, [Check(t)] + [Park(t)]) == asleep)
  {
    var s1, s2, s3 := State(2, s.pc[t := ToFutex]), State(2, s.pc[t := Checked]), State(2, s.pc[t := Parked]);
    assert Next(s1, Check(t)) == Some(s2) by { assert s1.pc[t := Checked] == s2.pc; }
    assert Next(s2, Park(t)) == Some(s3) by { assert s2.pc[t := Parked] == s3.pc; }
    if s.pc[t] == ToFutex {
      assert s.pc[t := ToFutex] == s.pc;
    }
    assert s.pc[t] == ToLoad ==> Next(s, Load(t)) == Some(s1);
    hide Next;
    Nothing(Next, s3);
    First(Next, s2, Park(t), []);
    assert [Park(t)] + [] == [Park(t)];
    First(Next, s1, Check(t), [Park(t)]);
    First(Next, s, Load(t), [Check(t)] + [Park(t)]);
  }

  /** A thread in wait(2) that meets another word leaves it and tries exchange(2) again, whether it
      meets it at the load, in the kernel, or after having slept. */
  lemma ChangedWordEndsTheWait(s: State, t: nat)
    requires t < |s.pc| && s.flag != 2 && KernelFree(s)
    ensures var tried := Some(State(2, s.pc[t := if s.flag == 0 then Critical else ToLoad]));
      && (s.pc[t] == ToLoad ==> Exec(Next, s, [Load(t)] + [Exchange(t)]) == tried)
      && (s.pc[t] == ToFutex ==> Exec(Next, s, [Check(t)] + ([Load(t)] + [Exchange(t)])) == tried)
      && (s.pc[t] == Parked ==> Exec(Next, s, [Spurious(t)] + ([Load(t)] + [Exchange(t)])) == tried)
  {
    var last := if s.flag == 0 then Critical else ToLoad;
    var s1, s2, s3 := Go(s, t, ToLoad), Go(s, t, ToExchange), State(2, s.pc[t := last]);
    assert Next(s1, Load(t)) == Some(s2) by { assert s1.pc[t := ToExchange] == s2.pc; }
    assert Next(s2, Exchange(t)) == Some(s3) by { assert s2.pc[t := last] == s3.pc; }
    if s.pc[t] == ToLoad {
      assert s1.pc == s.pc;
    }
    assert s.pc[t] == ToFutex ==> Next(s, Check(t)) == Some(s1);
    assert s.pc[t] == Parked ==> Next(s, Spurious(t)) == Some(s1);
    hide Next;
    Nothing(Next, s3);
    First(Next, s2, Exchange(t), []);
    assert [Exchange(t)] + [] == [Exchange(t)];
    First(Next, s1, Load(t), [Exchange(t)]);
    First(Next, s, Check(t), [Load(t)] + [Exchange(t)]);
    First(Next, s, Spurious(t), [Load(t)] + [Exchange(t)]);
  }

  /** exchange(2) is repeated only when wait(2) has seen another word. */
  lemma ExchangesAfterAChange(s: State, a: Action, t: nat)
    requires Reachable(s) && Next(s, a).Some? && At(Next(s, a).value, t, ToExchange) && !At(s, t, ToExchange)
    ensures (a == Cas(t) && s.flag == 1) || (a == Load(t) && s.flag != 2)
  {
    ReachableInv(s);
  }

  /** How many own steps a waiting thread takes, at most, until it sleeps. */
  function Patience(s: State, t: nat): nat
    requires t < |s.pc|
  {
    match s.pc[t]
    case Idle => 6
    case ToExchange => 4
    case ToLoad => if s.flag == 2 then 3 else 5
    case ToFutex => if s.flag == 2 then 2 else 6
    case Checked => 1
    case _ => 0
  }

  /** Nothing that releases the mutex or wakes a sleeper. */
  predicate Quiet(a: Action) {
    !a.FetchSub? && !a.StoreZero? && !a.NotifyOne? && !a.Spurious?
  }

  function StepsOf(acts: seq<Action>, t: nat): nat {
    if acts == [] then 0 else (if acts[0].t == t then 1 else 0) + StepsOf(acts[1..], t)
  }

  lemma PatienceStep(s: State, a: Action, t: nat)
    requires s.flag == 1 || s.flag == 2
    requires t < |s.pc| && Next(s, a).Some? && Quiet(a)
    ensures var s' := Next(s, a).value;
      && |s'.pc| == |s.pc| && (s'.flag == 1 || s'.flag == 2)
      && Patience(s', t) + (if a.t == t then 1 else 0) <= Patience(s, t)
  {}

  /** Nobody spins: while the mutex stays taken and nobody is woken, every thread takes at most six
      more steps, whatever the others do, and then sleeps. */
  lemma {:induction false} NobodySpins(s: State, acts: seq<Action>, s': State, t: nat)
    requires s.flag == 1 || s.flag == 2
    requires t < |s.pc| && Exec(Next, s, acts) == Some(s') && forall k :: 0 <= k < |acts| ==> Quiet(acts[k])
    ensures t < |s'.pc| && StepsOf(acts, t) + Patience(s', t) <= Patience(s, t) <= 6
    decreases |acts|
  {
    if acts != [] {
      PatienceStep(s, acts[0], t);
      hide Next, Quiet, Patience;
      NobodySpins(Next(s, acts[0]).value, acts[1..], s', t);
    } else {
      assert Patience(s, t) <= 6;
    }
  }

  predicate IsParked(pc: Pc) {
    pc == Parked
  }

  /** Every notify_one wakes exactly one sleeper, if there is one; nothing else but a spurious wakeup
      wakes anybody. */
  lemma EachNotifyWakesOne(s: State, a: Action)
    requires Next(s, a).Some?
    ensures var before, after := Count(s.pc, IsParked), Count(Next(s, a).value.pc, IsParked);
      if a.Park? then after == before + 1
      else if a.Spurious? || (a.NotifyOne? && before > 0) then after == before - 1
      else after == before
  {
    var s' := Next(s, a).value;
    CountNone(s.pc, IsParked);
    if a.NotifyOne? && At(s, a.w, Parked) {
      CountUpdate(s.pc, a.w, ToLoad, IsParked);
      CountUpdate(s.pc[a.w := ToLoad], a.t, Idle, IsParked);
    } else {
      CountUpdate(s.pc, a.t, s'.pc[a.t], IsParked);
    }
  }

  /** The mutex object.  Each method is one atomic operation of thread t, in the order the source
      performs them; `pc` records where every thread stands between its operations. */
  class Mutex {
    var flag: nat
    ghost var pc: seq<Pc>

    ghost function View(): State
      reads this
    {
      State(flag, pc)
    }

    constructor (ghost threads: nat)
      ensures View() == Init(threads)
    {
      flag := 0;
      pc := seq(threads, _ => Idle);
    }

    /** First operation of Lock; returns the value the word had. */
    method CompareExchange(ghost t: nat) returns (counter: nat)
      requires Next(View(), Cas(t)).Some?
      modifies this
      ensures Some(View()) == Next(old(View()), Cas(t))
      ensures counter == old(flag)
    {
      counter := flag;
      if flag == 0 {
        flag := 1;
        pc := pc[t := Critical];
      } else {
        pc := pc[t := if counter != 2 then ToExchange else ToLoad];
      }
    }

    /** exchange(2); Lock leaves its loop when it returns 0. */
    method ExchangeTwo(ghost t: nat) returns (counter: nat)
      requires Next(View(), Exchange(t)).Some?
      modifies this
      ensures Some(View()) == Next(old(View()), Exchange(t))
      ensures counter == old(flag)
    {
      counter := flag;
      flag := 2;
      pc := pc[t := if counter != 0 then ToLoad else Critical];
    }

    method LoadInWait(ghost t: nat) returns (again: bool)
      requires Next(View(), Load(t)).Some?
      modifies this
      ensures Some(View()) == Next(old(View()), Load(t))
      ensures again <==> old(flag) == 2
    {
      again := flag == 2;
      pc := pc[t := if again then ToFutex else ToExchange];
    }

    method FutexWaitCheck(ghost t: nat) returns (parks: bool)
      requires Next(View(), Check(t)).Some?
      modifies this
      ensures Some(View()) == Next(old(View()), Check(t))
      ensures parks <==> old(flag) == 2
    {
      parks := flag == 2;
      pc := pc[t := if parks then Checked else ToLoad];
    }

    /** The first write of Unlock; `slow` says whether the slow path follows. */
    method FetchSubOne(ghost t: nat) returns (slow: bool)
      requires Next(View(), FetchSub(t)).Some?
      modifies this
      ensures Some(View()) == Next(old(View()), FetchSub(t))
      ensures slow <==> old(flag) != 1
    {
      slow := flag != 1;
      flag := (flag + WORD - 1) % WORD;
      pc := pc[t := if slow then ToStore else Idle];
    }

    method StoreFree(ghost t: nat)
      requires Next(View(), StoreZero(t)).Some?
      modifies this
      ensures Some(View()) == Next(old(View()), StoreZero(t))
    {
      flag := 0;
      pc := pc[t := ToNotify];
    }

    /** notify_one: a kernel call, so it runs under the kernel lock; w is the thread it picks. */
    ghost method Notify(t: nat, w: nat)
      requires Next(View(), NotifyOne(t, w)).Some?
      modifies this`pc
      ensures Some(View()) == Next(old(View()), NotifyOne(t, w))
    {
      if At(View(), w, Parked) {
        pc := pc[w := ToLoad];
      }
      pc := pc[t := Idle];
    }
  }
}
