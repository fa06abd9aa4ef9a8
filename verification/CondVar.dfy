/** stdlike::CondVar (tasks/condvar/condvar/condvar.hpp): a 32-bit signal counter used as a futex.

    `word` is the counter the code sees; `count` is the same counter without wrap-around and exists
    only to state properties.  The kernel queue is first-in first-out.  As in the mutex, comparing
    the word and parking happen under the kernel lock, wakes take that lock, increments do not. */
module CondVar {
  import opened Runs
  import opened Counting

  const WORD := 0x1_0000_0000

  datatype Pc =
    | Out                          // not inside Wait or Notify
    | ToUnlock(expected: nat, seen: nat) // Wait has read the counter; seen is the unwrapped value
    | ToFutex(expected: nat, seen: nat)  // mutex released, about to enter FutexWait(expected)
    | Checked(seen: nat)           // kernel lock held, word compared equal, not yet queued
    | Parked(seen: nat)
    | ToRelock                     // FutexWait has returned, about to lock the mutex again
    | OneBumped                    // NotifyOne: fetch_add done, FutexWakeOne to come
    | AllBumped(mine: nat)         // NotifyAll: fetch_add brought the count to mine, FutexWakeAll to come

  datatype Sleeper = Sleeper(t: nat, seen: nat)

  datatype State = State(
    word: nat, count: nat,
    holder: Option<nat>,           // owner of the mutex given to Wait
    queue: seq<Sleeper>,           // parked threads, oldest first
    lastAll: nat,                  // largest `mine` of a completed NotifyAll
    pc: seq<Pc>)

  datatype Action =
    | Acquire(t: nat) | Release(t: nat)    // the client's own lock and unlock
    | Read(t: nat) | Unlock(t: nat) | Check(t: nat) | Park(t: nat) | Relock(t: nat)
    | Spurious(i: nat)                     // the i-th queued thread returns without a wake
    | BumpOne(t: nat) | WakeOne(t: nat)
    | BumpAll(t: nat) | WakeAll(t: nat)

  predicate KernelFree(s: State) {
    forall i :: 0 <= i < |s.pc| ==> !s.pc[i].Checked?
  }

  function Go(s: State, t: nat, pc: Pc): State
    requires t < |s.pc|
  {
    s.(pc := s.pc[t := pc])
  }

  function Bump(s: State): State {
    s.(word := (s.word + 1) % WORD, count := s.count + 1)
  }

  function WakeEverybody(pc: seq<Pc>): (r: seq<Pc>)
    ensures |r| == |pc|
  {
    seq(|pc|, i requires 0 <= i < |pc| => if pc[i].Parked? then ToRelock else pc[i])
  }

  function Next(s: State, a: Action): Option<State> {
    match a
    case Acquire(t) =>
      if t < |s.pc| && s.pc[t].Out? && s.holder == None then Some(s.(holder := Some(t))) else None
    case Release(t) =>
      if t < |s.pc| && s.pc[t].Out? && s.holder == Some(t) then Some(s.(holder := None)) else None
    case Read(t) =>
      if t < |s.pc| && s.pc[t].Out? && s.holder == Some(t)
      then Some(Go(s, t, ToUnlock(s.word, s.count))) else None
    case Unlock(t) =>
      if t < |s.pc| && s.pc[t].ToUnlock?
      then Some(Go(s, t, ToFutex(s.pc[t].expected, s.pc[t].seen)).(holder := None)) else None
    case Check(t) =>
      if t < |s.pc| && s.pc[t].ToFutex? && KernelFree(s)
      then Some(Go(s, t, if s.word == s.pc[t].expected then Checked(s.pc[t].seen) else ToRelock)) else None
    case Park(t) =>
      if t < |s.pc| && s.pc[t].Checked?
      then Some(Go(s, t, Parked(s.pc[t].seen)).(queue := s.queue + [Sleeper(t, s.pc[t].seen)])) else None
    case Relock(t) =>
      if t < |s.pc| && s.pc[t].ToRelock? && s.holder == None
      then Some(Go(s, t, Out).(holder := Some(t))) else None
    case Spurious(i) =>
      if i < |s.queue| && s.queue[i].t < |s.pc|
      then Some(Go(s, s.queue[i].t, ToRelock).(queue := s.queue[..i] + s.queue[i+1..])) else None
    case BumpOne(t) =>
      if t < |s.pc| && s.pc[t].Out? then Some(Bump(Go(s, t, OneBumped))) else None
    case WakeOne(t) =>
      if t < |s.pc| && s.pc[t].OneBumped? && KernelFree(s) then
        if s.queue == [] then Some(Go(s, t, Out))
        else if s.queue[0].t < |s.pc| then Some(Go(Go(s, s.queue[0].t, ToRelock), t, Out).(queue := s.queue[1..]))
        else None
      else None
    case BumpAll(t) =>
      if t < |s.pc| && s.pc[t].Out? then Some(Bump(Go(s, t, AllBumped(s.count + 1)))) else None
    case WakeAll(t) =>
      if t < |s.pc| && s.pc[t].AllBumped? && KernelFree(s)
      then Some(s.(pc := WakeEverybody(s.pc)[t := Out], queue := [],
                   lastAll := if s.pc[t].mine > s.lastAll then s.pc[t].mine else s.lastAll)) else None
  }

  function Init(threads: nat): State {
    State(0, 0, None, [], 0, seq(threads, _ => Out))
  }

  ghost predicate Reachable(s: State) {
    exists n: nat, acts :: Exec(Next, Init(n), acts) == Some(s)
  }

  /** Queued, or committed to queueing. */
  predicate Asleep(pc: Pc) {
    pc.Checked? || pc.Parked?
  }

  /** Inside Wait, past the read of the counter, FutexWait not yet returned. */
  predicate Waiting(pc: Pc) {
    pc.ToUnlock? || pc.ToFutex? || Asleep(pc)
  }

  // ---- What holds in every run, A-B-A or not

  ghost predicate Counters(s: State) {
    && s.word == s.count % WORD
    && s.lastAll <= s.count
    && forall i :: 0 <= i < |s.pc| ==> PcCounters(s, i)
  }

  ghost predicate PcCounters(s: State, i: nat)
    requires i < |s.pc|
  {
    var pc := s.pc[i];
    && (Waiting(pc) ==> pc.seen <= s.count)
    && (pc.ToUnlock? || pc.ToFutex? ==> pc.expected == pc.seen % WORD)
    && (pc.ToUnlock? ==> s.holder == Some(i))
    && (pc.AllBumped? ==> pc.mine <= s.count)
  }

  /** The queue holds exactly the parked threads, once each; one thread at most has the kernel lock. */
  ghost predicate Kernel(s: State) {
    && (forall i :: 0 <= i < |s.queue| ==> s.queue[i].t < |s.pc| && s.pc[s.queue[i].t] == Parked(s.queue[i].seen))
    && (forall t: nat :: t < |s.pc| && s.pc[t].Parked? ==> Sleeper(t, s.pc[t].seen) in s.queue)
    && (forall i, j :: 0 <= i < j < |s.queue| ==> s.queue[i].t != s.queue[j].t)
    && (forall t, u :: 0 <= t < u < |s.pc| ==> !(s.pc[t].Checked? && s.pc[u].Checked?))
  }

  ghost predicate Basic(s: State) {
    Counters(s) && Kernel(s)
  }

  lemma PcCountersStep(s: State, a: Action, i: nat)
    requires Counters(s) && Next(s, a).Some? && i < |s.pc|
    ensures |Next(s, a).value.pc| == |s.pc| && PcCounters(Next(s, a).value, i)
  {
    assert PcCounters(s, i);
    if a.Unlock? { assert PcCounters(s, a.t); }
  }

  lemma PlusOne(n: nat)
    ensures (n % WORD + 1) % WORD == (n + 1) % WORD
  {}

  lemma WordStep(s: State, a: Action)
    requires s.word == s.count % WORD && s.lastAll <= s.count && Next(s, a).Some?
    requires a.WakeAll? && a.t < |s.pc| && s.pc[a.t].AllBumped? ==> s.pc[a.t].mine <= s.count
    ensures var s' := Next(s, a).value; |s'.pc| == |s.pc| && s'.word == s'.count % WORD && s'.lastAll <= s'.count
  {
    PlusOne(s.count);
    if a.BumpOne? || a.BumpAll? {
      assert Next(s, a).value.word == (s.word + 1) % WORD;
    } else {
      assert Next(s, a).value.word == s.word;
    }
  }

  lemma CountersStep(s: State, a: Action)
    requires Counters(s) && Next(s, a).Some?
    ensures Counters(Next(s, a).value)
  {
    var s' := Next(s, a).value;
    if a.WakeAll? { assert PcCounters(s, a.t); }
    WordStep(s, a);
    hide Next, PcCounters;
    forall i: nat | i < |s'.pc| ensures PcCounters(s', i) {
      PcCountersStep(s, a, i);
    }
  }

  /** Waking the i-th queued thread, whatever happens to the threads outside the kernel. */
  lemma KernelWakes(s: State, i: nat, s': State)
    requires Kernel(s) && i < |s.queue| && |s'.pc| == |s.pc|
    requires s'.queue == s.queue[..i] + s.queue[i+1..]
    requires forall t :: 0 <= t < |s.pc| ==>
      if s.pc[t].Parked? && t != s.queue[i].t then s'.pc[t] == s.pc[t] else !s'.pc[t].Parked?
    requires forall t :: 0 <= t < |s.pc| ==> (s'.pc[t].Checked? ==> s.pc[t].Checked?)
    ensures Kernel(s')
  {
    var q := s'.queue;
    Without(s.queue, i);
    forall j: nat | j < |q| ensures q[j].t < |s.pc| && s'.pc[q[j].t] == Parked(q[j].seen) {
      assert q[j] in q;
    }
    forall t: nat | t < |s.pc| && s'.pc[t].Parked? ensures Sleeper(t, s'.pc[t].seen) in q {
      StillQueued(s, i, t);
    }
  }

  /** Taking one entry out of a queue leaves the others, still once each. */
  lemma Without(q: seq<Sleeper>, i: nat)
    requires i < |q| && forall j, k :: 0 <= j < k < |q| ==> q[j].t != q[k].t
    ensures var r := q[..i] + q[i+1..];
      && (forall e :: e in r ==> e in q && e.t != q[i].t)
      && (forall j, k :: 0 <= j < k < |r| ==> r[j].t != r[k].t)
  {
    var r := q[..i] + q[i+1..];
    assert forall j :: 0 <= j < |r| ==> r[j] == q[if j < i then j else j + 1];
  }

  lemma StillQueued(s: State, i: nat, t: nat)
    requires Kernel(s) && i < |s.queue| && t < |s.pc| && s.pc[t].Parked? && t != s.queue[i].t
    ensures Sleeper(t, s.pc[t].seen) in s.queue[..i] + s.queue[i+1..]
  {
    var k :| 0 <= k < |s.queue| && s.queue[k] == Sleeper(t, s.pc[t].seen);
    assert (s.queue[..i] + s.queue[i+1..])[if k < i then k else k - 1] == s.queue[k];
  }

  lemma KernelParks(s: State, t: nat)
    requires Kernel(s) && Next(s, Park(t)).Some?
    ensures Kernel(Next(s, Park(t)).value)
  {
    var s' := Next(s, Park(t)).value;
    assert s'.queue[|s.queue|] == Sleeper(t, s.pc[t].seen);
    forall u: nat | u < |s'.pc| && s'.pc[u].Parked? ensures Sleeper(u, s'.pc[u].seen) in s'.queue {
      assert u == t || Sleeper(u, s.pc[u].seen) in s.queue;
    }
  }

  lemma KernelFrame(s: State, s': State)
    requires Kernel(s) && |s'.pc| == |s.pc| && s'.queue == s.queue
    requires forall t :: 0 <= t < |s.pc| ==> if s.pc[t].Parked? then s'.pc[t] == s.pc[t] else !s'.pc[t].Parked?
    requires KernelFree(s) || forall t :: 0 <= t < |s.pc| ==> (s'.pc[t].Checked? <==> s.pc[t].Checked?)
    requires forall t, u :: 0 <= t < u < |s.pc| && s'.pc[t].Checked? && s'.pc[u].Checked? ==>
               s.pc[t].Checked? || s.pc[u].Checked?
    ensures Kernel(s')
  {}

  lemma KernelSpurious(s: State, i: nat)
    requires Kernel(s) && Next(s, Spurious(i)).Some?
    ensures Kernel(Next(s, Spurious(i)).value)
  {
    KernelWakes(s, i, Next(s, Spurious(i)).value);
  }

  lemma KernelWakeOne(s: State, t: nat)
    requires Kernel(s) && Next(s, WakeOne(t)).Some?
    ensures Kernel(Next(s, WakeOne(t)).value)
  {
    var s' := Next(s, WakeOne(t)).value;
    if s.queue == [] {
      KernelFrame(s, s');
    } else {
      assert s'.queue == s.queue[..0] + s.queue[0+1..];
      KernelWakes(s, 0, s');
    }
  }

  lemma KernelWakeAll(s: State, t: nat)
    requires Kernel(s) && Next(s, WakeAll(t)).Some?
    ensures Kernel(Next(s, WakeAll(t)).value)
  {}

  lemma KernelStep(s: State, a: Action)
    requires Kernel(s) && Next(s, a).Some?
    ensures Kernel(Next(s, a).value)
  {
    match a
    case Spurious(i) => KernelSpurious(s, i);
    case WakeOne(t) => KernelWakeOne(s, t);
    case Park(t) => KernelParks(s, t);
    case WakeAll(t) => KernelWakeAll(s, t);
    case _ => KernelFrame(s, Next(s, a).value);
  }

  lemma BasicStep(s: State, a: Action)
    requires Basic(s) && Next(s, a).Some?
    ensures Basic(Next(s, a).value)
  {
    CountersStep(s, a);
    KernelStep(s, a);
  }

  lemma ReachableBasic(s: State)
    requires Reachable(s)
    ensures Basic(s)
  {
    var n: nat, acts :| Exec(Next, Init(n), acts) == Some(s);
    forall x, a | Basic(x) && Next(x, a).Some? ensures Basic(Next(x, a).value) {
      BasicStep(x, a);
    }
    Invariant(Next, Basic, Init(n), acts);
  }

  // ---- The A-B-A of the counter

  /** a is t's futex check, made a positive multiple of 2^32 increments after t read the counter,
      and t read it at count c or before. */
  predicate WrappedCheck(s: State, a: Action, t: nat, c: nat) {
    && a == Check(t) && t < |s.pc| && s.pc[t].ToFutex? && s.pc[t].seen <= c
    && var signals := s.count - s.pc[t].seen; signals > 0 && signals % WORD == 0
  }

  /** Some check of t in this run is a wrapped one. */
  ghost predicate Wraps(s: State, acts: seq<Action>, t: nat, c: nat)
    decreases |acts|
  {
    && acts != [] && Next(s, acts[0]).Some?
    && (WrappedCheck(s, acts[0], t, c) || Wraps(Next(s, acts[0]).value, acts[1..], t, c))
  }

  /** t sleeps in a Wait that has read the counter at c or before. */
  predicate Oversleeps(s: State, t: nat, c: nat) {
    t < |s.pc| && Asleep(s.pc[t]) && s.pc[t].seen <= c
  }

  ghost predicate OversleepsSometime(s: State, acts: seq<Action>, t: nat, c: nat)
    decreases |acts|
  {
    || Oversleeps(s, t, c)
    || (acts != [] && Next(s, acts[0]).Some? && OversleepsSometime(Next(s, acts[0]).value, acts[1..], t, c))
  }

  /** Exactly when a futex check goes wrong.  In any run at all: thread t is put to sleep although
      signals were sent since it read the counter, if and only if their number is a multiple of 2^32. */
  lemma MissesSignalsExactlyOnWrap(s: State, t: nat)
    requires Reachable(s) && t < |s.pc| && s.pc[t].ToFutex? && KernelFree(s)
    ensures var s' := Next(s, Check(t)).value; var signals := s.count - s.pc[t].seen;
      s'.pc[t].Checked? && signals > 0 <==> signals > 0 && signals % WORD == 0
  {
    ReachableBasic(s);
    assert PcCounters(s, t);
    ModDifference(s.count, s.pc[t].seen);
  }

  lemma ModDifference(a: nat, b: nat)
    requires b <= a
    ensures a % WORD == b % WORD <==> (a - b) % WORD == 0
  {
    var q, r := a / WORD, b / WORD;
    assert a - b == (q - r) * WORD + (a % WORD - b % WORD);
    if (a - b) % WORD == 0 {
      var k := (a - b) / WORD;
      assert a - b == k * WORD;
    }
  }

  lemma CountNeverFalls(s: State, a: Action)
    requires Next(s, a).Some?
    ensures |Next(s, a).value.pc| == |s.pc| && s.count <= Next(s, a).value.count
  {}

  /** A thread comes to sleep only by a futex check that finds the word it expected. */
  lemma AsleepFrom(s: State, a: Action, t: nat)
    requires Next(s, a).Some? && t < |s.pc| && t < |Next(s, a).value.pc|
    ensures var pc, pc' := s.pc[t], Next(s, a).value.pc[t];
      var matched := a == Check(t) && pc.ToFutex? && s.word == pc.expected;
      && (matched ==> pc' == Checked(pc.seen))
      && (Asleep(pc') ==> matched || (Asleep(pc) && pc'.seen == pc.seen))
  {}

  /** Once the count is past c, only a wrapped check puts a thread to sleep with a sample of c or before. */
  lemma OversleepStep(s: State, a: Action, t: nat, c: nat)
    requires Basic(s) && c < s.count && Next(s, a).Some?
    ensures var s' := Next(s, a).value;
      && c < s'.count
      && (WrappedCheck(s, a, t, c) ==> Oversleeps(s', t, c))
      && (Oversleeps(s', t, c) ==> Oversleeps(s, t, c) || WrappedCheck(s, a, t, c))
  {
    CountNeverFalls(s, a);
    if t < |s.pc| {
      AsleepFrom(s, a, t);
      assert PcCounters(s, t);
      if a == Check(t) && s.pc[t].ToFutex? {
        ModDifference(s.count, s.pc[t].seen);
      }
    }
    hide Next, Kernel;
  }

  /** So, over a whole run, a thread that does not oversleep now comes to do so exactly if one of
      its own checks is a wrapped one. */
  lemma {:induction false} OversleepsExactlyOnWrap(s: State, acts: seq<Action>, t: nat, c: nat)
    requires Basic(s) && c < s.count && !Oversleeps(s, t, c) && Exec(Next, s, acts).Some?
    ensures OversleepsSometime(s, acts, t, c) <==> Wraps(s, acts, t, c)
    decreases |acts|
  {
    if acts != [] {
      var s1 := Next(s, acts[0]).value;
      OversleepStep(s, acts[0], t, c);
      BasicStep(s, acts[0]);
      hide Next, Basic, Oversleeps, WrappedCheck;
      if WrappedCheck(s, acts[0], t, c) {
        assert OversleepsSometime(s1, acts[1..], t, c);
      } else {
        OversleepsExactlyOnWrap(s1, acts[1..], t, c);
      }
    }
  }

  lemma {:induction false} OversleepsInTheEnd(s: State, acts: seq<Action>, t: nat, c: nat)
    requires Exec(Next, s, acts).Some? && Oversleeps(Exec(Next, s, acts).value, t, c)
    ensures OversleepsSometime(s, acts, t, c)
    decreases |acts|
  {
    if acts != [] {
      OversleepsInTheEnd(Next(s, acts[0]).value, acts[1..], t, c);
    }
  }

  // ---- NotifyAll

  /** From the increment of a NotifyAll to its wake: a run from s to s1. */
  ghost predicate NotifiesAll(s: State, u: nat, during: seq<Action>, s1: State) {
    Exec(Next, s, [BumpAll(u)] + (during + [WakeAll(u)])) == Some(s1)
  }

  lemma NotifyAllWakes(s: State, u: nat, during: seq<Action>, s1: State)
    requires Reachable(s) && NotifiesAll(s, u, during, s1)
    ensures Basic(s) && Basic(s1) && s.count < s1.count
    ensures forall t :: 0 <= t < |s1.pc| ==> !Asleep(s1.pc[t])
  {
    ReachableBasic(s);
    var c := s.count;
    First(Next, s, BumpAll(u), during + [WakeAll(u)]);
    var x1 := Next(s, BumpAll(u)).value;
    assert x1.count == c + 1;
    hide Next, Basic;
    Split(Next, x1, during, [WakeAll(u)]);
    var x2 := Exec(Next, x1, during).value;
    First(Next, x2, WakeAll(u), []);
    Nothing(Next, s1);
    assert [WakeAll(u)] + [] == [WakeAll(u)];
    BasicStep(s, BumpAll(u));
    forall x, a | Basic(x) && c < x.count && Next(x, a).Some?
      ensures Basic(Next(x, a).value) && c < Next(x, a).value.count
    {
      BasicStep(x, a);
      OversleepStep(x, a, 0, c);
    }
    Invariant(Next, x => Basic(x) && c < x.count, x1, during);
    BasicStep(x2, WakeAll(u));
    WakeAllWakes(x2, u);
  }

  lemma WakeAllWakes(s: State, u: nat)
    requires Next(s, WakeAll(u)).Some?
    ensures var s' := Next(s, WakeAll(u)).value;
      s'.count == s.count && forall t :: 0 <= t < |s'.pc| ==> !Asleep(s'.pc[t])
  {}

  /** A thread t that had read the counter before a NotifyAll began does not sleep in that Wait at
      any time after the NotifyAll, unless a check of its own meets the counter a multiple of 2^32
      increments later; what other threads' checks meet does not matter.  (Whoever waits in s has
      read a count of at most s.count, whoever begins to wait later a larger one.) */
  lemma NotifyAllIsNeverMissed(s: State, u: nat, during: seq<Action>, s1: State, after: seq<Action>, s': State, t: nat)
    requires Reachable(s) && NotifiesAll(s, u, during, s1) && Exec(Next, s1, after) == Some(s')
    requires !Wraps(s1, after, t, s.count)
    ensures t < |s.pc| && Waiting(s.pc[t]) ==> s.pc[t].seen <= s.count
    ensures t < |s'.pc| && Asleep(s'.pc[t]) ==> s.count < s'.pc[t].seen
  {
    NotifyAllIsMissedExactlyOnWrap(s, u, during, s1, after, t);
    if t < |s.pc| {
      assert PcCounters(s, t);
    }
    hide Next, NotifiesAll;
    if Oversleeps(s', t, s.count) {
      OversleepsInTheEnd(s1, after, t, s.count);
    }
  }

  /** And that exception is exact, over whole runs: t sleeps, at some time after the NotifyAll, in
      a Wait that had read the counter before it, if and only if one of t's checks is a wrapped one. */
  lemma NotifyAllIsMissedExactlyOnWrap(s: State, u: nat, during: seq<Action>, s1: State, after: seq<Action>, t: nat)
    requires Reachable(s) && NotifiesAll(s, u, during, s1) && Exec(Next, s1, after).Some?
    ensures Basic(s)
    ensures OversleepsSometime(s1, after, t, s.count) <==> Wraps(s1, after, t, s.count)
  {
    NotifyAllWakes(s, u, during, s1);
    OversleepsExactlyOnWrap(s1, after, t, s.count);
  }

  function SignalStorm(k: nat): seq<Action> {
    if k == 0 then [] else SignalStorm(k - 1) + [BumpAll(1), WakeAll(1)]
  }

  function StormState(k: nat): State {
    State(k % WORD, k, None, [], k, [ToFutex(0, 0), Out])
  }

  lemma OneStormStep(k: nat)
    ensures Exec(Next, StormState(k), [BumpAll(1), WakeAll(1)]) == Some(StormState(k + 1))
  {
    var s1 := State((k + 1) % WORD, k + 1, None, [], k, [ToFutex(0, 0), AllBumped(k + 1)]);
    assert Next(StormState(k), BumpAll(1)) == Some(s1) by {
      assert StormState(k).pc[1 := AllBumped(k + 1)] == s1.pc;
      assert (k % WORD + 1) % WORD == (k + 1) % WORD;
    }
    assert Next(s1, WakeAll(1)) == Some(StormState(k + 1)) by {
      assert WakeEverybody(s1.pc)[1 := Out] == StormState(k + 1).pc;
    }
    First(Next, s1, WakeAll(1), []);
    First(Next, StormState(k), BumpAll(1), [WakeAll(1)]);
    assert [BumpAll(1)] + [WakeAll(1)] == [BumpAll(1), WakeAll(1)];
  }

  lemma {:induction false} StormRuns(k: nat)
    ensures Exec(Next, StormState(0), SignalStorm(k)) == Some(StormState(k))
  {
    hide Next, StormState, Exec;
    Nothing(Next, StormState(0));
    if k > 0 {
      StormRuns(k - 1);
      OneStormStep(k - 1);
      Split(Next, StormState(0), SignalStorm(k - 1), [BumpAll(1), WakeAll(1)]);
    }
  }

  lemma EnterWait()
    ensures Exec(Next, Init(2), [Acquire(0)] + ([Read(0)] + [Unlock(0)])) == Some(StormState(0))
  {
    var i := Init(2);
    var a1 := i.(holder := Some(0));
    assert Next(i, Acquire(0)) == Some(a1);
    var a2 := a1.(pc := [ToUnlock(0, 0), Out]);
    assert Next(a1, Read(0)) == Some(a2) by { assert a1.pc[0 := ToUnlock(0, 0)] == a2.pc; }
    assert Next(a2, Unlock(0)) == Some(StormState(0)) by { assert a2.pc[0 := ToFutex(0, 0)] == StormState(0).pc; }
    First(Next, a2, Unlock(0), []);
    First(Next, a1, Read(0), [Unlock(0)]);
    First(Next, i, Acquire(0), [Read(0)] + [Unlock(0)]);
  }

  lemma FallAsleep()
    ensures Exec(Next, StormState(WORD), [Check(0)] + [Park(0)]) ==
      Some(State(0, WORD, None, [Sleeper(0, 0)], WORD, [Parked(0), Out]))
  {
    var s1 := State(0, WORD, None, [], WORD, [Checked(0), Out]);
    var s2 := State(0, WORD, None, [Sleeper(0, 0)], WORD, [Parked(0), Out]);
    assert Next(StormState(WORD), Check(0)) == Some(s1) by { assert StormState(WORD).pc[0 := Checked(0)] == s1.pc; }
    assert Next(s1, Park(0)) == Some(s2) by {
      assert s1.pc[0 := Parked(0)] == s2.pc;
      assert s1.queue + [Sleeper(0, 0)] == s2.queue;
    }
    First(Next, s1, Park(0), []);
    First(Next, StormState(WORD), Check(0), [Park(0)]);
  }

  /** Without the bound the promise fails: a thread that reads the counter, lets 2^32 complete
      NotifyAll calls of one other thread pass and only then compares, parks all the same. */
  lemma WrapMakesNotifyAllMissed()
    ensures exists s: State :: Reachable(s) && |s.pc| == 2 && s.lastAll == WORD && s.pc[0] == Parked(0)
  {
    hide Next;
    StormThenSleep(WORD);
  }

  lemma StormThenSleep(k: nat)
    requires k == WORD
    ensures exists s: State :: Reachable(s) && |s.pc| == 2 && s.lastAll == k && s.pc[0] == Parked(0)
  {
    hide Next, SignalStorm;
    EnterWait();
    StormRuns(k);
    FallAsleep();
    var enter := [Acquire(0)] + ([Read(0)] + [Unlock(0)]);
    var sleep := [Check(0)] + [Park(0)];
    Split(Next, Init(2), enter, SignalStorm(k));
    Split(Next, Init(2), enter + SignalStorm(k), sleep);
    var s := State(0, k, None, [Sleeper(0, 0)], k, [Parked(0), Out]);
    assert Exec(Next, Init(2), enter + SignalStorm(k) + sleep) == Some(s);
    assert Reachable(s) && s.pc[0] == Parked(0);
  }

  // ---- NotifyOne

  /** Threads asleep in a Wait that had read the counter at c or before. */
  ghost function Sleepers(s: State, c: nat): set<nat> {
    set t: nat | t < |s.pc| && Asleep(s.pc[t]) && s.pc[t].seen <= c
  }

  ghost function Waiters(s: State): set<nat> {
    set t: nat | t < |s.pc| && Waiting(s.pc[t])
  }

  /** How many NotifyOne calls complete in a run. */
  function Wakes(acts: seq<Action>): nat {
    if acts == [] then 0 else (if acts[0].WakeOne? then 1 else 0) + Wakes(acts[1..])
  }

  /** The sleepers of c stand at the front of the queue, and one about to park has only such
      sleepers before it. */
  ghost predicate InFront(s: State, c: nat) {
    && (forall i, j :: 0 <= i < j < |s.queue| && s.queue[j].seen <= c ==> s.queue[i].seen <= c)
    && (forall t, i :: 0 <= t < |s.pc| && s.pc[t].Checked? && s.pc[t].seen <= c && 0 <= i < |s.queue| ==>
          s.queue[i].seen <= c)
  }

  ghost predicate Queueing(s: State, c: nat) {
    Basic(s) && c < s.count && InFront(s, c)
  }

  /** A step that puts nobody to sleep with a sample of c or before and takes at most one thread
      out of the queue. */
  lemma InFrontFrame(s: State, s': State, c: nat, i: nat)
    requires InFront(s, c) && |s'.pc| == |s.pc|
    requires s'.queue == s.queue || s'.queue == [] || (i < |s.queue| && s'.queue == s.queue[..i] + s.queue[i+1..])
    requires forall u :: 0 <= u < |s.pc| && s'.pc[u].Checked? && s'.pc[u].seen <= c ==> s.pc[u] == s'.pc[u]
    ensures InFront(s', c)
  {}

  lemma InFrontParks(s: State, t: nat, c: nat)
    requires Basic(s) && InFront(s, c) && Next(s, Park(t)).Some?
    ensures InFront(Next(s, Park(t)).value, c)
  {
    var s' := Next(s, Park(t)).value;
    assert s'.queue == s.queue + [Sleeper(t, s.pc[t].seen)];
    assert forall u :: 0 <= u < |s.pc| && u != t ==> !s'.pc[u].Checked?;
  }

  lemma InFrontStep(s: State, a: Action, c: nat)
    requires Queueing(s, c) && Next(s, a).Some?
    requires forall t :: !WrappedCheck(s, a, t, c)
    ensures Queueing(Next(s, a).value, c)
  {
    var s' := Next(s, a).value;
    BasicStep(s, a);
    OversleepStep(s, a, 0, c);
    if a.Park? {
      InFrontParks(s, a.t, c);
    } else {
      if a.Check? {
        OversleepStep(s, a, a.t, c);
      }
      InFrontShrinks(s, a, c);
      hide Next, Basic;
      InFrontFrame(s, s', c, if a.Spurious? then a.i else 0);
    }
  }

  /** What steps other than parking do to the queue and to threads about to park. */
  lemma InFrontShrinks(s: State, a: Action, c: nat)
    requires Next(s, a).Some? && !a.Park?
    requires a.Check? ==> !Oversleeps(Next(s, a).value, a.t, c) || Oversleeps(s, a.t, c)
    ensures var s', i := Next(s, a).value, if a.Spurious? then a.i else 0;
      && |s'.pc| == |s.pc|
      && (s'.queue == s.queue || s'.queue == [] || (i < |s.queue| && s'.queue == s.queue[..i] + s.queue[i+1..]))
      && (forall u :: 0 <= u < |s.pc| && s'.pc[u].Checked? && s'.pc[u].seen <= c ==> s.pc[u] == s'.pc[u])
  {}

  lemma FrontIsWoken(s: State, a: Action)
    requires Kernel(s) && Next(s, a).Some? && a.WakeOne? && s.queue != []
    ensures !Asleep(Next(s, a).value.pc[s.queue[0].t])
  {}

  /** Once the count is past c, nobody joins the sleepers of c but by a wrapped check, and every
      completing NotifyOne takes one of them away while there are any. */
  lemma SleepersStep(s: State, a: Action, c: nat)
    requires Queueing(s, c) && Next(s, a).Some?
    requires forall t :: !WrappedCheck(s, a, t, c)
    ensures Sleepers(Next(s, a).value, c) <= Sleepers(s, c)
    ensures a.WakeOne? && Sleepers(s, c) != {} ==>
      exists t :: t in Sleepers(s, c) && t !in Sleepers(Next(s, a).value, c)
  {
    var s' := Next(s, a).value;
    assert a.WakeOne? ==> KernelFree(s);
    hide Next, Counters;
    forall t | t in Sleepers(s', c) ensures t in Sleepers(s, c) {
      assert Oversleeps(s', t, c) && !WrappedCheck(s, a, t, c);
      OversleepStep(s, a, t, c);
    }
    if a.WakeOne? && Sleepers(s, c) != {} {
      var t :| t in Sleepers(s, c);
      var k :| 0 <= k < |s.queue| && s.queue[k] == Sleeper(t, s.pc[t].seen);
      assert s.queue[0].seen <= c;
      FrontIsWoken(s, a);
      assert s.queue[0].t in Sleepers(s, c) && s.queue[0].t !in Sleepers(s', c);
    }
  }

  ghost predicate NeverWraps(s: State, acts: seq<Action>, c: nat) {
    forall t :: !Wraps(s, acts, t, c)
  }

  lemma NeverWrapsStep(s: State, acts: seq<Action>, c: nat)
    requires acts != [] && Next(s, acts[0]).Some? && NeverWraps(s, acts, c)
    ensures forall t :: !WrappedCheck(s, acts[0], t, c)
    ensures NeverWraps(Next(s, acts[0]).value, acts[1..], c)
  {
    hide Next, WrappedCheck;
    forall t: nat ensures !WrappedCheck(s, acts[0], t, c) && !Wraps(Next(s, acts[0]).value, acts[1..], t, c) {
      assert !Wraps(s, acts, t, c);
    }
  }

  lemma {:induction false} SleepersRun(s: State, acts: seq<Action>, c: nat, s': State)
    requires Queueing(s, c) && Exec(Next, s, acts) == Some(s') && NeverWraps(s, acts, c)
    ensures Sleepers(s', c) <= Sleepers(s, c)
    ensures |Sleepers(s', c)| == 0 || |Sleepers(s', c)| + Wakes(acts) <= |Sleepers(s, c)|
    decreases |acts|
  {
    if acts != [] {
      var s1 := Next(s, acts[0]).value;
      hide Next, Queueing, Basic, NeverWraps, WrappedCheck;
      NeverWrapsStep(s, acts, c);
      InFrontStep(s, acts[0], c);
      SleepersStep(s, acts[0], c);
      SleepersRun(s1, acts[1..], c, s');
      var x, y, z := Sleepers(s, c), Sleepers(s1, c), Sleepers(s', c);
      if acts[0].WakeOne? && x != {} {
        var t :| t in x && t !in y;
        Smaller(y, x - {t});
      } else {
        Smaller(y, x);
      }
      Smaller(z, y);
    }
  }

  /** If k NotifyOne calls increment after state s and complete by s' (so at least k wakes happen
      in between), then of the w threads waiting in s at least min(k, w) no longer sleep in that
      Wait, however many others start waiting meanwhile.  Only checks of threads that had read the
      counter by s matter: none of them may be a wrapped one.  A Wait begun after s has read a count
      above s.count, so Sleepers(s', s.count) are those still asleep in the Wait they were in. */
  lemma NotifyOneWakesEnough(s: State, u: nat, acts: seq<Action>, s': State)
    requires Reachable(s) && Next(s, BumpOne(u)).Some?
    requires var s1 := Next(s, BumpOne(u)).value; Exec(Next, s1, acts) == Some(s') && NeverWraps(s1, acts, s.count)
    ensures var k, w := Wakes(acts), |Waiters(s)|;
      && Sleepers(s', s.count) <= Waiters(s)
      && |Waiters(s) - Sleepers(s', s.count)| >= if k < w then k else w
  {
    var s1 := Next(s, BumpOne(u)).value;
    BumpOneBegins(s, u);
    var w, x, z := Waiters(s), Sleepers(s1, s.count), Sleepers(s', s.count);
    hide Next, Queueing, Exec, Sleepers, Waiters, NeverWraps;
    SleepersRun(s1, acts, s.count, s');
    Smaller(x, w);
    Divided(w, z);
  }

  lemma Divided(w: set<nat>, z: set<nat>)
    requires z <= w
    ensures |w| == |w - z| + |z|
  {
    assert w == (w - z) + z;
  }

  lemma BumpOneBegins(s: State, u: nat)
    requires Reachable(s) && Next(s, BumpOne(u)).Some?
    ensures Queueing(Next(s, BumpOne(u)).value, s.count)
    ensures Sleepers(Next(s, BumpOne(u)).value, s.count) <= Waiters(s)
  {
    ReachableBasic(s);
    var s1 := Next(s, BumpOne(u)).value;
    BasicStep(s, BumpOne(u));
    forall i | 0 <= i < |s1.queue| ensures s1.queue[i].seen <= s.count {
      assert PcCounters(s, s.queue[i].t);
    }
  }

  // ---- Nothing else wakes a sleeper, and nothing else keeps one awake

  ghost function ParkedThreads(s: State): set<nat> {
    set t: nat | t < |s.pc| && s.pc[t].Parked?
  }

  /** A NotifyOne wakes exactly one sleeper, the one that has slept longest, if there is one. */
  lemma WakeOneWakesExactlyOne(s: State, u: nat)
    requires Reachable(s) && Next(s, WakeOne(u)).Some?
    ensures var before, after := ParkedThreads(s), ParkedThreads(Next(s, WakeOne(u)).value);
      if before == {} then after == {}
      else s.queue != [] && s.queue[0].t in before && after == before - {s.queue[0].t}
    ensures var s' := Next(s, WakeOne(u)).value;
      u < |s.pc| && s'.pc == (if s.queue == [] then s.pc else s.pc[s.queue[0].t := ToRelock])[u := Out]
  {
    ReachableBasic(s);
    var s' := Next(s, WakeOne(u)).value;
    assert |s'.pc| == |s.pc|;
    if t :| t in ParkedThreads(s) {
      assert Sleeper(t, s.pc[t].seen) in s.queue;
    }
  }

  /** A NotifyAll wakes exactly the sleepers. */
  lemma WakeAllWakesExactlyTheSleepers(s: State, u: nat)
    requires Reachable(s) && Next(s, WakeAll(u)).Some?
    ensures var s' := Next(s, WakeAll(u)).value;
      && ParkedThreads(s') == {} && s'.queue == [] && |s'.pc| == |s.pc|
      && forall t: nat :: t < |s.pc| ==>
           s'.pc[t] == if t == u then Out else if t in ParkedThreads(s) then ToRelock else s.pc[t]
  {}

  /** A Wait that meets no notification: the thread gives up the mutex and sleeps. */
  lemma WaitAlone(s: State, t: nat)
    requires Counters(s) && t < |s.pc| && s.holder == Some(t) && s.pc[t].Out? && KernelFree(s)
    ensures Exec(Next, s, [Read(t)] + ([Unlock(t)] + ([Check(t)] + [Park(t)]))) == Some(s.(
      pc := s.pc[t := Parked(s.count)], holder := None, queue := s.queue + [Sleeper(t, s.count)]))
  {
    var c := s.count;
    var s1 := Go(s, t, ToUnlock(s.word, c));
    var s2 := Go(s1, t, ToFutex(s.word, c)).(holder := None);
    var s3 := Go(s2, t, Checked(c));
    var s4 := Go(s3, t, Parked(c)).(queue := s.queue + [Sleeper(t, c)]);
    assert s4.pc == s.pc[t := Parked(c)];
    assert KernelFree(s2);
    assert Next(s, Read(t)) == Some(s1) && Next(s1, Unlock(t)) == Some(s2) && Next(s2, Check(t)) == Some(s3);
    assert Next(s3, Park(t)) == Some(s4);
    hide Next, Counters, KernelFree, Exec;
    Nothing(Next, s4);
    First(Next, s3, Park(t), []);
    assert [Park(t)] + [] == [Park(t)];
    First(Next, s2, Check(t), [Park(t)]);
    First(Next, s1, Unlock(t), [Check(t)] + [Park(t)]);
    First(Next, s, Read(t), [Unlock(t)] + ([Check(t)] + [Park(t)]));
  }

  lemma BumpAlone(s: State, u: nat)
    requires u < |s.pc| && s.pc[u].Out? && KernelFree(s)
    ensures Next(s, BumpOne(u)) == Some(Bump(Go(s, u, OneBumped))) && KernelFree(Bump(Go(s, u, OneBumped)))
  {}

  lemma RelockAlone(s: State, t: nat)
    requires t < |s.pc| && s.pc[t].ToRelock? && s.holder == None
    ensures Next(s, Relock(t)) == Some(Go(s, t, Out).(holder := Some(t)))
  {}

  lemma WakeTheOnly(s: State, t: nat, u: nat, c: nat)
    requires t < |s.pc| && u < |s.pc| && s.pc[u].OneBumped? && KernelFree(s) && s.queue == [Sleeper(t, c)]
    ensures Next(s, WakeOne(u)) == Some(Go(Go(s, t, ToRelock), u, Out).(queue := []))
  {
    assert s.queue[1..] == [];
  }

  lemma WokenAlone(s: State, t: nat, u: nat, c: nat)
    requires t < |s.pc| && u < |s.pc| && t != u && s.pc[u].OneBumped? && KernelFree(s)
    requires s.queue == [Sleeper(t, c)] && s.holder == None
    ensures Exec(Next, s, [WakeOne(u)] + [Relock(t)]) ==
      Some(s.(pc := s.pc[u := Out][t := Out], queue := [], holder := Some(t)))
  {
    var s1 := Go(Go(s, t, ToRelock), u, Out).(queue := []);
    var s2 := Go(s1, t, Out).(holder := Some(t));
    WakeTheOnly(s, t, u, c);
    RelockAlone(s1, t);
    assert s2.pc == s.pc[u := Out][t := Out];
    hide Next, KernelFree, Exec;
    Nothing(Next, s2);
    First(Next, s1, Relock(t), []);
    assert [Relock(t)] + [] == [Relock(t)];
    First(Next, s, WakeOne(u), [Relock(t)]);
  }

  /** A NotifyOne that finds one sleeper, and its way back to the mutex. */
  lemma WakeAlone(s: State, t: nat, u: nat, c: nat)
    requires t < |s.pc| && u < |s.pc| && t != u && KernelFree(s) && s.holder == None
    requires s.queue == [Sleeper(t, c)] && s.pc[u].Out?
    ensures Exec(Next, s, [BumpOne(u)] + ([WakeOne(u)] + [Relock(t)])) == Some(Bump(s).(
      pc := s.pc[t := Out], holder := Some(t), queue := []))
  {
    var s1 := Bump(Go(s, u, OneBumped));
    BumpAlone(s, u);
    assert s1.word == Bump(s).word && s1.count == Bump(s).count && s1.lastAll == s.lastAll;
    assert s.pc[u := OneBumped][u := Out][t := Out] == s.pc[t := Out];
    hide Next, KernelFree, Exec, Bump;
    WokenAlone(s1, t, u, c);
    First(Next, s, BumpOne(u), [WakeOne(u)] + [Relock(t)]);
  }

  /** A whole Wait that one NotifyOne ends: alone with its notifier, the thread sleeps, is woken, and
      has the mutex back; all that has changed is the counter. */
  lemma NotifyOneEndsAWait(s: State, t: nat, u: nat)
    requires Reachable(s) && t < |s.pc| && u < |s.pc| && t != u
    requires s.holder == Some(t) && s.pc[t].Out? && s.pc[u].Out? && s.queue == [] && KernelFree(s)
    ensures var wait := [Read(t)] + ([Unlock(t)] + ([Check(t)] + [Park(t)]));
      var wake := [BumpOne(u)] + ([WakeOne(u)] + [Relock(t)]);
      Exec(Next, s, wait + wake) == Some(Bump(s))
  {
    ReachableBasic(s);
    WaitAlone(s, t);
    var c := s.count;
    var s1 := s.(pc := s.pc[t := Parked(c)], holder := None, queue := s.queue + [Sleeper(t, c)]);
    assert KernelFree(s1) && s1.pc[t := Out] == s.pc;
    hide Next, Basic;
    WakeAlone(s1, t, u, c);
    var wait := [Read(t)] + ([Unlock(t)] + ([Check(t)] + [Park(t)]));
    Split(Next, s, wait, [BumpOne(u)] + ([WakeOne(u)] + [Relock(t)]));
  }

  /** Any other step than WakeAll takes at most one thread out of the sleepers. */
  lemma SleepersLeave(s: State, a: Action)
    requires Kernel(s) && Next(s, a).Some? && !a.WakeAll?
    ensures var before, after := ParkedThreads(s), ParkedThreads(Next(s, a).value);
      if a.WakeOne? || a.Spurious? then exists w :: before <= after + {w} else before <= after
  {
    var before, after := ParkedThreads(s), ParkedThreads(Next(s, a).value);
    assert |Next(s, a).value.pc| == |s.pc|;
    if a.WakeOne? {
      var w := if s.queue == [] then 0 else s.queue[0].t;
      assert before <= after + {w};
    } else if a.Spurious? {
      assert before <= after + {s.queue[a.i].t};
    }
  }

  function Departures(acts: seq<Action>): nat {
    if acts == [] then 0 else (if acts[0].WakeOne? || acts[0].Spurious? then 1 else 0) + Departures(acts[1..])
  }

  /** Over whole runs: k NotifyOne calls and j spurious wakeups wake at most k + j threads. */
  lemma {:induction false} NotifyOneWakesNoMore(s: State, acts: seq<Action>, s': State)
    requires Basic(s) && Exec(Next, s, acts) == Some(s') && forall k :: 0 <= k < |acts| ==> !acts[k].WakeAll?
    ensures |ParkedThreads(s)| <= |ParkedThreads(s')| + Departures(acts)
    decreases |acts|
  {
    if acts != [] {
      var a, s1 := acts[0], Next(s, acts[0]).value;
      BasicStep(s, a);
      SleepersLeave(s, a);
      hide Next, Basic, ParkedThreads;
      NotifyOneWakesNoMore(s1, acts[1..], s');
      var x, y := ParkedThreads(s), ParkedThreads(s1);
      if a.WakeOne? || a.Spurious? {
        var w :| x <= y + {w};
        Smaller(x, y + {w});
      } else {
        Smaller(x, y);
      }
    }
  }

  /** How many notifications begin in a run. */
  function Bumps(acts: seq<Action>): nat {
    if acts == [] then 0 else (if acts[0].BumpOne? || acts[0].BumpAll? then 1 else 0) + Bumps(acts[1..])
  }

  /** t is in one and the same Wait, before its futex check, all through the run. */
  ghost predicate StaysBeforeCheck(s: State, acts: seq<Action>, t: nat)
    decreases |acts|
  {
    && t < |s.pc| && (s.pc[t].ToUnlock? || s.pc[t].ToFutex?)
    && (acts != [] && Next(s, acts[0]).Some? ==> StaysBeforeCheck(Next(s, acts[0]).value, acts[1..], t))
  }

  lemma SampleStays(s: State, a: Action, t: nat)
    requires Basic(s) && Next(s, a).Some? && t < |s.pc| && (s.pc[t].ToUnlock? || s.pc[t].ToFutex?)
    requires var s' := Next(s, a).value; t < |s'.pc| && (s'.pc[t].ToUnlock? || s'.pc[t].ToFutex?)
    ensures var s' := Next(s, a).value;
      && s'.pc[t].seen == s.pc[t].seen
      && s'.count == s.count + if a.BumpOne? || a.BumpAll? then 1 else 0
  {}

  lemma {:induction false} SampleAges(s: State, acts: seq<Action>, s': State, t: nat)
    requires Basic(s) && Exec(Next, s, acts) == Some(s') && StaysBeforeCheck(s, acts, t)
    ensures Basic(s') && s'.count == s.count + Bumps(acts)
    ensures t < |s'.pc| && (s'.pc[t].ToUnlock? || s'.pc[t].ToFutex?) && s'.pc[t].seen == s.pc[t].seen
    decreases |acts|
  {
    if acts != [] {
      var s1 := Next(s, acts[0]).value;
      assert StaysBeforeCheck(s1, acts[1..], t);
      SampleStays(s, acts[0], t);
      BasicStep(s, acts[0]);
      hide Next, Basic;
      SampleAges(s1, acts[1..], s', t);
    }
  }

  /** Wait sleeps exactly if it should: from the read of the counter to the futex check, whatever
      happens in between, the check puts the thread to sleep if and only if the number of
      notifications since the read is a multiple of 2^32; and it sleeps at once, without mutex. */
  lemma WaitSleepsExactlyUnlessNotified(s: State, t: nat, acts: seq<Action>, s': State)
    requires Reachable(s) && Next(s, Read(t)).Some?
    requires var s1 := Next(s, Read(t)).value; Exec(Next, s1, acts) == Some(s') && StaysBeforeCheck(s1, acts, t)
    requires KernelFree(s') && t < |s'.pc| && s'.pc[t].ToFutex?
    ensures var s2 := Next(s', Check(t)).value;
      if Bumps(acts) % WORD == 0 then
        s2.pc[t].Checked? && Next(s2, Park(t)).Some? && t in ParkedThreads(Next(s2, Park(t)).value)
      else s2.pc[t].ToRelock?
  {
    ReachableBasic(s);
    BasicStep(s, Read(t));
    var s1 := Next(s, Read(t)).value;
    assert s1.count == s.count && s1.pc[t].seen == s.count;
    SampleAges(s1, acts, s', t);
    assert PcCounters(s', t);
    ModDifference(s'.count, s.count);
  }

  // ---- The object

  /** Each method is one atomic operation of thread t, in the order of the source.  The counter is
      the only memory of the object; the mutex belongs to the client and the queue to the kernel. */
  class CondVar {
    var futex: nat
    ghost var count: nat
    ghost var holder: Option<nat>
    ghost var queue: seq<Sleeper>
    ghost var lastAll: nat
    ghost var pc: seq<Pc>

    ghost function View(): State
      reads this
    {
      State(futex, count, holder, queue, lastAll, pc)
    }

    constructor (ghost threads: nat)
      ensures View() == Init(threads)
    {
      futex, count, lastAll := 0, 0, 0;
      holder, queue := None, [];
      pc := seq(threads, _ => Out);
    }

    /** Wait: sample the counter while the mutex is held. */
    method WaitSample(ghost t: nat) returns (expected: nat)
      requires Next(View(), Read(t)).Some?
      modifies this
      ensures Some(View()) == Next(old(View()), Read(t))
      ensures expected == old(futex)
    {
      expected := futex;
      pc := pc[t := ToUnlock(expected, count)];
    }

    /** Wait: mutex.unlock(). */
    method WaitUnlock(ghost t: nat)
      requires Next(View(), Unlock(t)).Some?
      modifies this
      ensures Some(View()) == Next(old(View()), Unlock(t))
    {
      holder := None;
      pc := pc[t := ToFutex(pc[t].expected, pc[t].seen)];
    }

    /** Wait: FutexWait(expected) compares under the kernel lock. */
    method WaitCompare(ghost t: nat, expected: nat) returns (parks: bool)
      requires Next(View(), Check(t)).Some? && pc[t].expected == expected
      modifies this
      ensures Some(View()) == Next(old(View()), Check(t))
      ensures parks <==> old(futex) == expected
    {
      parks := futex == expected;
      pc := pc[t := if parks then Checked(pc[t].seen) else ToRelock];
    }

    /** Wait: mutex.lock(), after which Wait returns. */
    method WaitRelock(ghost t: nat)
      requires Next(View(), Relock(t)).Some?
      modifies this
      ensures Some(View()) == Next(old(View()), Relock(t))
      ensures holder == Some(t)
    {
      holder := Some(t);
      pc := pc[t := Out];
    }

    method NotifyOneAdd(ghost t: nat)
      requires Next(View(), BumpOne(t)).Some?
      modifies this
      ensures Some(View()) == Next(old(View()), BumpOne(t))
    {
      futex := (futex + 1) % WORD;
      count := count + 1;
      pc := pc[t := OneBumped];
    }

    method NotifyAllAdd(ghost t: nat)
      requires Next(View(), BumpAll(t)).Some?
      modifies this
      ensures Some(View()) == Next(old(View()), BumpAll(t))
    {
      futex := (futex + 1) % WORD;
      count := count + 1;
      pc := pc[t := AllBumped(count)];
    }

    /** FutexWakeOne: the kernel takes the oldest sleeper. */
    ghost method NotifyOneWake(t: nat)
      requires Next(View(), WakeOne(t)).Some?
      modifies this
      ensures Some(View()) == Next(old(View()), WakeOne(t))
    {
      if queue != [] {
        pc := pc[queue[0].t := ToRelock];
        queue := queue[1..];
      }
      pc := pc[t := Out];
    }

    ghost method NotifyAllWake(t: nat)
      requires Next(View(), WakeAll(t)).Some?
      modifies this
      ensures Some(View()) == Next(old(View()), WakeAll(t))
    {
      if pc[t].mine > lastAll {
        lastAll := pc[t].mine;
      }
      queue := [];
      pc := WakeEverybody(pc)[t := Out];
    }
  }
}
