/** solutions::CyclicBarrier (tasks/condvar/barrier/cyclic_barrier.hpp).

    Every critical section is one atomic step.  A thread in a condition variable is waiting, or
    has been woken (by notify_all or spuriously) and will re-test the predicate.  Each of the
    `participants` threads calls Arrive `calls` times. */
module Barrier {
  import opened Runs
  import opened Counting

  const SIZE := 0x1_0000_0000_0000_0000 // counter_ is a size_t

  /** In all of them k is the number of Arrive calls the thread has completed. */
  datatype Pc =
    | Ready(k: nat)      // between two calls
    | WaitOpen(k: nat)   // DerivedPhase: waiting on is_open_
    | WokenOpen(k: nat)  // to re-test is_open_flag
    | Leaving(k: nat)    // between DerivedPhase and DepartedPhase
    | WaitClose(k: nat)  // DepartedPhase: waiting on is_close_
    | WokenClose(k: nat) // to re-test !is_open_flag

  datatype State = State(
    participants: nat, calls: nat,
    counter: nat, open: bool,
    pc: seq<Pc>,
    round: nat,     // rounds finished, that is, times the flag went back to false
    notifies: nat)  // notify_all calls so far

  datatype Action = Derive(t: nat) | RetestOpen(t: nat) | Depart(t: nat) | RetestClose(t: nat) | Spurious(t: nat)

  function WakeOpen(pcs: seq<Pc>): (r: seq<Pc>)
    ensures |r| == |pcs|
  {
    seq(|pcs|, i requires 0 <= i < |pcs| => if pcs[i].WaitOpen? then WokenOpen(pcs[i].k) else pcs[i])
  }

  function WakeClose(pcs: seq<Pc>): (r: seq<Pc>)
    ensures |r| == |pcs|
  {
    seq(|pcs|, i requires 0 <= i < |pcs| => if pcs[i].WaitClose? then WokenClose(pcs[i].k) else pcs[i])
  }

  function Go(s: State, t: nat, pc: Pc): State
    requires t < |s.pc|
  {
    s.(pc := s.pc[t := pc])
  }

  function Next(s: State, a: Action): Option<State> {
    if a.t >= |s.pc| then None
    else
      var t, k := a.t, s.pc[a.t].k;
      match a
      case Derive(_) =>
        if !s.pc[t].Ready? || k >= s.calls then None
        else
          var c := (s.counter + 1) % SIZE;
          if c == s.participants then
            Some(s.(counter := c, open := true, pc := WakeOpen(s.pc)[t := Leaving(k)], notifies := s.notifies + 1))
          else
            Some(Go(s, t, if s.open then Leaving(k) else WaitOpen(k)).(counter := c))
      case RetestOpen(_) =>
        if !s.pc[t].WokenOpen? then None
        else Some(Go(s, t, if s.open then Leaving(k) else WaitOpen(k)))
      case Depart(_) =>
        if !s.pc[t].Leaving? then None
        else
          var c := (s.counter + SIZE - 1) % SIZE;
          if c == 0 then
            Some(s.(counter := c, open := false, pc := WakeClose(s.pc)[t := Ready(k + 1)],
                    round := s.round + 1, notifies := s.notifies + 1))
          else
            Some(Go(s, t, if !s.open then Ready(k + 1) else WaitClose(k)).(counter := c))
      case RetestClose(_) =>
        if !s.pc[t].WokenClose? then None
        else Some(Go(s, t, if !s.open then Ready(k + 1) else WaitClose(k)))
      case Spurious(_) =>
        if s.pc[t].WaitOpen? then Some(Go(s, t, WokenOpen(k)))
        else if s.pc[t].WaitClose? then Some(Go(s, t, WokenClose(k)))
        else None
  }

  function Init(participants: nat, calls: nat): State {
    State(participants, calls, 0, false, seq(participants, _ => Ready(0)), 0, 0)
  }

  ghost predicate Reachable(s: State) {
    exists n: nat, k: nat, acts :: 1 <= n < SIZE && Exec(Next, Init(n, k), acts) == Some(s)
  }

  /** t has incremented counter_ and not yet decremented it. */
  predicate Counted(pc: Pc) {
    pc.WaitOpen? || pc.WokenOpen? || pc.Leaving?
  }

  predicate WhileOpen(pc: Pc, round: nat) {
    (pc.WokenOpen? || pc.Leaving? || pc.WaitClose? || pc.WokenClose?) && pc.k == round
  }

  predicate WhileClosed(pc: Pc, round: nat, calls: nat) {
    if pc.WokenClose? then pc.k + 1 == round
    else pc.k == round && (pc.Ready? || ((pc.WaitOpen? || pc.WokenOpen?) && round < calls))
  }

  ghost predicate Inv(s: State) {
    && 1 <= |s.pc| == s.participants < SIZE
    && s.counter == Count(s.pc, Counted)
    && s.round <= s.calls
    && s.notifies == 2 * s.round + (if s.open then 1 else 0)
    && if s.open then
         0 < s.counter && s.round < s.calls && forall t :: 0 <= t < |s.pc| ==> WhileOpen(s.pc[t], s.round)
       else
         s.counter < s.participants && forall t :: 0 <= t < |s.pc| ==> WhileClosed(s.pc[t], s.round, s.calls)
  }

  lemma DeriveStep(s: State, t: nat)
    requires Inv(s) && Next(s, Derive(t)).Some?
    ensures Inv(Next(s, Derive(t)).value)
  {
    var s' := Next(s, Derive(t)).value;
    assert !s.open && s.pc[t] == Ready(s.round);
    if s.counter + 1 < s.participants {
      assert s' == s.(counter := s.counter + 1, pc := s.pc[t := WaitOpen(s.round)]);
      hide Next;
      CountUpdate(s.pc, t, WaitOpen(s.round), Counted);
    } else {
      var n := s.pc[t := Leaving(s.round)];
      assert s' == s.(counter := s.counter + 1, open := true, pc := WakeOpen(s.pc)[t := Leaving(s.round)],
                      notifies := s.notifies + 1);
      hide Next;
      CountUpdate(s.pc, t, Leaving(s.round), Counted);
      CountSame(n, s'.pc, Counted, Counted);
      CountAll(n, Counted);
      assert forall u :: 0 <= u < |s.pc| && u != t ==> Counted(n[u]) && n[u] == s.pc[u];
    }
  }

  lemma DepartStep(s: State, t: nat)
    requires Inv(s) && Next(s, Depart(t)).Some?
    ensures Inv(Next(s, Depart(t)).value)
  {
    var s' := Next(s, Depart(t)).value;
    assert s.open;
    CountAll(s.pc, Counted);
    assert (s.counter + SIZE - 1) % SIZE == s.counter - 1;
    CountUpdate(s.pc, t, Ready(s.round + 1), Counted);
    CountUpdate(s.pc, t, WaitClose(s.round), Counted);
    if s.counter == 1 {
      var n := s.pc[t := Ready(s.round + 1)];
      CountSame(n, s'.pc, Counted, Counted);
      CountNone(n, Counted);
      assert forall u :: 0 <= u < |s.pc| && u != t ==> !Counted(n[u]) && n[u] == s.pc[u];
    } else {
      CountAll(s'.pc, Counted);
    }
  }

  lemma InvStep(s: State, a: Action)
    requires Inv(s) && Next(s, a).Some?
    ensures Inv(Next(s, a).value)
  {
    match a
    case Derive(t) => DeriveStep(s, t);
    case Depart(t) => DepartStep(s, t);
    case _ =>
      var s' := Next(s, a).value;
      CountUpdate(s.pc, a.t, s'.pc[a.t], Counted);
  }

  lemma InitInv(n: nat, k: nat)
    requires 1 <= n < SIZE
    ensures Inv(Init(n, k))
  {
    CountNone(Init(n, k).pc, Counted);
  }

  lemma ReachableInv(s: State)
    requires Reachable(s)
    ensures Inv(s)
  {
    var n: nat, k: nat, acts :| 1 <= n < SIZE && Exec(Next, Init(n, k), acts) == Some(s);
    InitInv(n, k);
    forall x, a | Inv(x) && Next(x, a).Some? ensures Inv(Next(x, a).value) {
      InvStep(x, a);
    }
    Invariant(Next, Inv, Init(n, k), acts);
  }

  // ---- Safety

  /** The number of Arrive calls a thread has entered. */
  function Entered(pc: Pc): nat {
    if pc.Ready? then pc.k else pc.k + 1
  }

  /** Whoever has returned from its k-th Arrive knows that all others have entered theirs; the
      numbers of completed calls differ by at most one; counter_ counts the threads between
      increment and decrement, so it neither wraps nor underflows. */
  lemma NobodyPassesAlone(s: State, t: nat, u: nat)
    requires Reachable(s) && t < |s.pc| && u < |s.pc|
    ensures s.pc[t].k <= Entered(s.pc[u])
    ensures s.pc[t].k <= s.pc[u].k + 1
    ensures s.counter == Count(s.pc, Counted)
    ensures s.pc[t].Leaving? ==> 1 <= s.counter <= s.participants
  {
    ReachableInv(s);
    CountAll(s.pc, Counted);
  }

  /** The flag goes back only when every waiter of the opening has left, and goes up only when
      every waiter of the last closing has left. */
  lemma FlagWaitsForItsWaiters(s: State, a: Action)
    requires Reachable(s) && Next(s, a).Some?
    ensures var s' := Next(s, a).value;
      && (s.open && !s'.open ==>
            forall u :: 0 <= u < |s'.pc| ==> !s'.pc[u].WaitOpen? && !s'.pc[u].WokenOpen? && !s'.pc[u].Leaving?)
      && (!s.open && s'.open ==> forall u :: 0 <= u < |s'.pc| ==> !s'.pc[u].WaitClose? && !s'.pc[u].WokenClose?)
  {
    ReachableInv(s);
    InvStep(s, a);
    var s' := Next(s, a).value;
    if s.open && !s'.open {
      CountNone(s'.pc, Counted);
    }
    if !s.open && s'.open {
      CountAll(s'.pc, Counted);
      DeriveOpens(s, a);
    }
  }

  lemma DeriveOpens(s: State, a: Action)
    requires Inv(s) && Next(s, a).Some? && !s.open && Next(s, a).value.open
    ensures Count(Next(s, a).value.pc, Counted) == |Next(s, a).value.pc|
  {
    InvStep(s, a);
    hide Inv;
    assert a.Derive?;
  }

  /** Each round takes exactly two notify_all calls. */
  lemma TwoNotificationsPerRound(s: State)
    requires Reachable(s)
    ensures s.notifies == 2 * s.round + (if s.open then 1 else 0)
    ensures forall t :: 0 <= t < |s.pc| && s.pc[t].Ready? ==> s.pc[t].k == s.round
  {
    ReachableInv(s);
  }

  // ---- Progress

  /** No thread sleeps on a predicate that is true, and unless every thread has finished its calls
      some thread can step without a spurious wakeup. */
  lemma NobodyStaysBehind(s: State)
    requires Reachable(s)
    ensures forall t :: 0 <= t < |s.pc| ==> !(s.pc[t].WaitOpen? && s.open) && !(s.pc[t].WaitClose? && !s.open)
    ensures (exists t :: 0 <= t < |s.pc| && s.pc[t] != Ready(s.calls)) ==>
      exists a: Action :: !a.Spurious? && Next(s, a).Some?
  {
    ReachableInv(s);
    if t: nat :| t < |s.pc| && (s.pc[t].WokenOpen? || s.pc[t].WokenClose? || s.pc[t].Leaving? ||
                                (s.pc[t].Ready? && s.pc[t].k < s.calls)) {
      var a := if s.pc[t].WokenOpen? then RetestOpen(t) else if s.pc[t].WokenClose? then RetestClose(t)
               else if s.pc[t].Leaving? then Depart(t) else Derive(t);
      assert Next(s, a).Some?;
    } else if s.open {
      CountNone(s.pc, Counted);
      assert false;
    } else if s.round < s.calls {
      CountAll(s.pc, Counted);
      assert false;
    }
  }

  /** What `stages` stages weigh: each more than there are threads to be woken. */
  function Weight(stages: int, n: nat): nat {
    if stages <= 0 then 0 else stages * n
  }

  /** Work left for a thread: four stages a call, and one for a pending re-test. */
  function Rank(pc: Pc, calls: nat, n: nat): nat {
    var left := 4 * (calls - pc.k);
    match pc
    case Ready(_) => Weight(left, n)
    case WaitOpen(_) => Weight(left - 1, n)
    case WokenOpen(_) => Weight(left - 1, n) + 1
    case Leaving(_) => Weight(left - 2, n)
    case WaitClose(_) => Weight(left - 3, n)
    case WokenClose(_) => Weight(left - 3, n) + 1
  }

  function Ranks(calls: nat, n: nat): Pc -> nat {
    pc => Rank(pc, calls, n)
  }

  function Measure(s: State): nat {
    Sum(s.pc, Ranks(s.calls, |s.pc|))
  }

  /** The ranks of consecutive stages lie n apart. */
  lemma StageRanks(k: nat, calls: nat, n: nat)
    requires k < calls
    ensures Rank(WaitOpen(k), calls, n) == Rank(Ready(k), calls, n) - n
    ensures Rank(Leaving(k), calls, n) == Rank(Ready(k), calls, n) - 2 * n
    ensures Rank(WaitClose(k), calls, n) == Rank(Ready(k), calls, n) - 3 * n
    ensures Rank(Ready(k + 1), calls, n) == Rank(Ready(k), calls, n) - 4 * n
    ensures Rank(WokenOpen(k), calls, n) == Rank(WaitOpen(k), calls, n) + 1
    ensures Rank(WokenClose(k), calls, n) == Rank(WaitClose(k), calls, n) + 1
    ensures Rank(Ready(k), calls, n) >= 4 * n
  {
    var left := 4 * (calls - k);
    assert (left - 1) * n == left * n - n;
    assert (left - 2) * n == left * n - 2 * n;
    assert (left - 3) * n == left * n - 3 * n;
    assert (left - 4) * n == left * n - 4 * n;
    assert left * n >= 4 * n;
    assert 4 * (calls - (k + 1)) == left - 4;
  }

  /** A thread's own step lowers its rank, and by two stages if it calls notify_all. */
  lemma OwnRankDrops(s: State, a: Action)
    requires Inv(s) && Next(s, a).Some? && !a.Spurious?
    ensures var s' := Next(s, a).value; var t, n := a.t, |s.pc|;
      && t < n && |s'.pc| == n && s'.calls == s.calls
      && Rank(s'.pc[t], s.calls, n) < Rank(s.pc[t], s.calls, n)
      && (s'.pc == s.pc[t := s'.pc[t]] ||
          (Rank(s'.pc[t], s.calls, n) + 2 * n == Rank(s.pc[t], s.calls, n) &&
           (s'.pc == WakeOpen(s.pc)[t := s'.pc[t]] || s'.pc == WakeClose(s.pc)[t := s'.pc[t]])))
  {
    assert s.pc[a.t].k < s.calls;
    StageRanks(s.pc[a.t].k, s.calls, |s.pc|);
    hide Rank;
  }

  lemma WakingCostsLittle(pcs: seq<Pc>, t: nat, pc: Pc, calls: nat)
    requires t < |pcs|
    ensures Sum(WakeOpen(pcs)[t := pc], Ranks(calls, |pcs|)) <= Sum(pcs[t := pc], Ranks(calls, |pcs|)) + |pcs|
    ensures Sum(WakeClose(pcs)[t := pc], Ranks(calls, |pcs|)) <= Sum(pcs[t := pc], Ranks(calls, |pcs|)) + |pcs|
  {
    SumGrows(pcs[t := pc], WakeOpen(pcs)[t := pc], Ranks(calls, |pcs|));
    SumGrows(pcs[t := pc], WakeClose(pcs)[t := pc], Ranks(calls, |pcs|));
  }

  /** Every step but a spurious wakeup brings the end nearer, so every run with finitely many
      spurious wakeups ends; with NobodyStaysBehind, it ends with all calls completed. */
  lemma StepsGetSomewhere(s: State, a: Action)
    requires Inv(s) && Next(s, a).Some? && !a.Spurious?
    ensures Measure(Next(s, a).value) < Measure(s)
  {
    OwnRankDrops(s, a);
    var s' := Next(s, a).value;
    SumUpdate(s.pc, a.t, s'.pc[a.t], Ranks(s.calls, |s.pc|));
    WakingCostsLittle(s.pc, a.t, s'.pc[a.t], s.calls);
    hide Next, Inv, Rank;
  }

  lemma SpuriousCostsOne(s: State, t: nat)
    requires Inv(s) && Next(s, Spurious(t)).Some?
    ensures Measure(Next(s, Spurious(t)).value) == Measure(s) + 1
  {
    var s' := Next(s, Spurious(t)).value;
    SumUpdate(s.pc, t, s'.pc[t], Ranks(s.calls, |s.pc|));
    StageRanks(s.pc[t].k, s.calls, |s.pc|);
  }

  function Spuriouses(acts: seq<Action>): nat {
    if acts == [] then 0 else (if acts[0].Spurious? then 1 else 0) + Spuriouses(acts[1..])
  }

  /** A bound on the length of every run, whatever the schedule. */
  lemma {:induction false} RunsEnd(s: State, acts: seq<Action>, s': State)
    requires Inv(s) && Exec(Next, s, acts) == Some(s')
    ensures |acts| + Measure(s') <= Measure(s) + 2 * Spuriouses(acts)
    decreases |acts|
  {
    if acts != [] {
      InvStep(s, acts[0]);
      if acts[0].Spurious? {
        SpuriousCostsOne(s, acts[0].t);
      } else {
        StepsGetSomewhere(s, acts[0]);
      }
      hide Next, Inv, Measure;
      RunsEnd(Next(s, acts[0]).value, acts[1..], s');
    }
  }

  // ---- Without spurious wakeups every schedule takes exactly as long

  /** Critical sections a thread has before it, if it is never last in a phase. */
  function Due(pc: Pc, calls: nat): nat {
    var left := 4 * (calls - pc.k) - (match pc
      case Ready(_) => 0
      case WaitOpen(_) => 1
      case WokenOpen(_) => 1
      case Leaving(_) => 2
      case WaitClose(_) => 3
      case WokenClose(_) => 3);
    if left < 0 then 0 else left
  }

  function Dues(calls: nat): Pc -> nat {
    pc => Due(pc, calls)
  }

  /** All of them, less one for each phase still to end: its last thread does not wait. */
  function StepsLeft(s: State): int {
    Sum(s.pc, Dues(s.calls)) - 2 * (s.calls - s.round) + if s.open then 1 else 0
  }

  /** Nobody is awake who has no reason to be. */
  ghost predicate NoFalseAlarm(s: State) {
    forall t :: 0 <= t < |s.pc| ==> (s.pc[t].WokenOpen? ==> s.open) && (s.pc[t].WokenClose? ==> !s.open)
  }

  lemma WakingIsFree(pcs: seq<Pc>, t: nat, pc: Pc, calls: nat)
    requires t < |pcs|
    ensures Sum(WakeOpen(pcs)[t := pc], Dues(calls)) == Sum(pcs[t := pc], Dues(calls))
    ensures Sum(WakeClose(pcs)[t := pc], Dues(calls)) == Sum(pcs[t := pc], Dues(calls))
  {
    SumSame(WakeOpen(pcs)[t := pc], pcs[t := pc], Dues(calls));
    SumSame(WakeClose(pcs)[t := pc], pcs[t := pc], Dues(calls));
  }

  /** A thread's own step takes one stage off it, two if it ends a phase. */
  lemma OwnDueDrops(s: State, a: Action)
    requires Inv(s) && NoFalseAlarm(s) && Next(s, a).Some? && !a.Spurious?
    ensures var s', t := Next(s, a).value, a.t; var opens, closes := !s.open && s'.open, s.open && !s'.open;
      && t < |s.pc| && s'.calls == s.calls && s'.round == s.round + (if closes then 1 else 0)
      && Due(s'.pc[t], s.calls) + (if opens || closes then 2 else 1) == Due(s.pc[t], s.calls)
      && s'.pc == (if opens then WakeOpen(s.pc) else if closes then WakeClose(s.pc) else s.pc)[t := s'.pc[t]]
  {
    assert s.pc[a.t].k < s.calls;
  }

  lemma ExactlyOneStep(s: State, a: Action)
    requires Inv(s) && NoFalseAlarm(s) && Next(s, a).Some? && !a.Spurious?
    ensures StepsLeft(Next(s, a).value) == StepsLeft(s) - 1
  {
    OwnDueDrops(s, a);
    var s' := Next(s, a).value;
    hide Next, Inv, NoFalseAlarm;
    SumUpdate(s.pc, a.t, s'.pc[a.t], Dues(s.calls));
    WakingIsFree(s.pc, a.t, s'.pc[a.t], s.calls);
  }

  lemma NoFalseAlarmStep(s: State, a: Action)
    requires Inv(s) && NoFalseAlarm(s) && Next(s, a).Some? && !a.Spurious?
    ensures NoFalseAlarm(Next(s, a).value)
  {
    var s' := Next(s, a).value;
    InvStep(s, a);
    CountAll(s'.pc, Counted);
    if !s.open && s'.open {
      DeriveOpens(s, a);
    } else if s.open && !s'.open {
      CountNone(s'.pc, Counted);
    }
  }

  lemma {:induction false} RunsTakeExactly(s: State, acts: seq<Action>, s': State)
    requires Inv(s) && NoFalseAlarm(s) && Exec(Next, s, acts) == Some(s') && Spuriouses(acts) == 0
    ensures |acts| + StepsLeft(s') == StepsLeft(s) && Inv(s')
    decreases |acts|
  {
    if acts != [] {
      ExactlyOneStep(s, acts[0]);
      NoFalseAlarmStep(s, acts[0]);
      InvStep(s, acts[0]);
      hide Next, Inv, NoFalseAlarm, StepsLeft;
      RunsTakeExactly(Next(s, acts[0]).value, acts[1..], s');
    }
  }

  /** Without spurious wakeups n threads need exactly 4n - 2 critical sections for a round, under
      every schedule: each thread enters and leaves, and all but the last wait once in each phase
      and are woken once. */
  lemma {:induction false} EveryScheduleTakesAsLong(n: nat, calls: nat, acts: seq<Action>, s: State)
    requires 1 <= n < SIZE && Exec(Next, Init(n, calls), acts) == Some(s) && Spuriouses(acts) == 0
    ensures |acts| + StepsLeft(s) == (4 * n - 2) * calls
    ensures (forall t :: 0 <= t < |s.pc| ==> s.pc[t] == Ready(calls)) ==> |acts| == (4 * n - 2) * calls
  {
    var init := Init(n, calls);
    InitInv(n, calls);
    InitialSteps(n, calls);
    assert NoFalseAlarm(init);
    CallsStay(init, acts, s);
    hide Next, Init, StepsLeft, NoFalseAlarm;
    RunsTakeExactly(init, acts, s);
    if forall t :: 0 <= t < |s.pc| ==> s.pc[t] == Ready(calls) {
      NothingLeft(s);
    }
  }

  lemma InitialSteps(n: nat, calls: nat)
    requires 1 <= n
    ensures StepsLeft(Init(n, calls)) == (4 * n - 2) * calls && Init(n, calls).calls == calls
  {
    SumConstant(Init(n, calls).pc, Dues(calls), 4 * calls);
    assert n * (4 * calls) - 2 * calls == (4 * n - 2) * calls;
  }

  lemma NothingLeft(s: State)
    requires Inv(s) && forall t :: 0 <= t < |s.pc| ==> s.pc[t] == Ready(s.calls)
    ensures StepsLeft(s) == 0
  {
    SumZero(s.pc, Dues(s.calls));
    assert s.pc[0] == Ready(s.calls);
  }

  lemma {:induction false} CallsStay(s: State, acts: seq<Action>, s': State)
    requires Exec(Next, s, acts) == Some(s')
    ensures s'.calls == s.calls
  {
    Invariant(Next, (x: State) => x.calls == s.calls, s, acts);
  }

  // ---- The object

  /** Each method is one critical section of thread t. */
  class CyclicBarrier {
    const participants: nat
    var counter: nat
    var isOpenFlag: bool
    ghost const calls: nat
    ghost var pc: seq<Pc>
    ghost var round: nat
    ghost var notifies: nat

    ghost function View(): State
      reads this
    {
      State(participants, calls, counter, isOpenFlag, pc, round, notifies)
    }

    constructor (participants: nat, ghost calls: nat)
      ensures View() == Init(participants, calls)
    {
      this.participants := participants;
      this.calls := calls;
      counter, isOpenFlag := 0, false;
      pc := seq(participants, _ => Ready(0));
      round, notifies := 0, 0;
    }

    /** DerivedPhase, up to its return or its wait. */
    method DerivedPhase(ghost t: nat) returns (passed: bool)
      requires Next(View(), Derive(t)).Some?
      modifies this
      ensures Some(View()) == Next(old(View()), Derive(t))
      ensures passed <==> pc[t].Leaving?
    {
      ghost var k := pc[t].k;
      counter := (counter + 1) % SIZE;
      if counter == participants {
        isOpenFlag := true;
        notifies := notifies + 1;
        pc := WakeOpen(pc)[t := Leaving(k)];
        passed := true;
      } else {
        passed := isOpenFlag;
        pc := pc[t := if passed then Leaving(k) else WaitOpen(k)];
      }
    }

    /** A woken thread of DerivedPhase tests the predicate again. */
    method DerivedRetest(ghost t: nat) returns (passed: bool)
      requires Next(View(), RetestOpen(t)).Some?
      modifies this`pc
      ensures Some(View()) == Next(old(View()), RetestOpen(t))
      ensures passed <==> pc[t].Leaving?
    {
      passed := isOpenFlag;
      pc := pc[t := if passed then Leaving(pc[t].k) else WaitOpen(pc[t].k)];
    }

    /** DepartedPhase, up to its return or its wait. */
    method DepartedPhase(ghost t: nat) returns (passed: bool)
      requires Next(View(), Depart(t)).Some?
      modifies this
      ensures Some(View()) == Next(old(View()), Depart(t))
      ensures passed <==> pc[t].Ready?
    {
      ghost var k := pc[t].k;
      counter := (counter + SIZE - 1) % SIZE;
      if counter == 0 {
        isOpenFlag := false;
        notifies := notifies + 1;
        round := round + 1;
        pc := WakeClose(pc)[t := Ready(k + 1)];
        passed := true;
      } else {
        passed := !isOpenFlag;
        pc := pc[t := if passed then Ready(k + 1) else WaitClose(k)];
      }
    }

    method DepartedRetest(ghost t: nat) returns (passed: bool)
      requires Next(View(), RetestClose(t)).Some?
      modifies this`pc
      ensures Some(View()) == Next(old(View()), RetestClose(t))
      ensures passed <==> pc[t].Ready?
    {
      passed := !isOpenFlag;
      pc := pc[t := if passed then Ready(pc[t].k + 1) else WaitClose(pc[t].k)];
    }
  }
}
