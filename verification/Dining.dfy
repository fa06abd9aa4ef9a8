/** The dining philosophers (tasks/intro/dining/philosopher.cpp, table.hpp): forks are mutexes,
    seat 0 takes its left fork first, every other seat its right one. */
module Dining {
  import opened Runs
  import opened Counting

  datatype Pc =
    | Thinking
    | ToSecond        // holds the first fork, about to lock the second
    | ToOwnPlate      // holds both, about to access plate `seat`
    | ToRightPlate    // about to access the plate to the right
    | ToUnlockRight
    | ToUnlockLeft

  /** The owner of every fork, and where everybody stands; philosopher i sits at seat i. */
  datatype State = State(forks: seq<Option<nat>>, pc: seq<Pc>, meals: seq<nat>)

  /** Lock and unlock actions, and the accesses to plates. */
  datatype Action =
    | LockFirst(i: nat) | LockSecond(i: nat)
    | EatOwn(i: nat) | EatRight(i: nat)
    | UnlockRight(i: nat) | UnlockLeft(i: nat)

  function ToRight(seat: nat, n: nat): nat
    requires n > 0
  {
    (seat + 1) % n
  }

  function LeftFork(seat: nat, n: nat): nat {
    seat
  }

  function RightFork(seat: nat, n: nat): nat
    requires n > 0
  {
    ToRight(seat, n)
  }

  function First(seat: nat, n: nat): nat
    requires n > 0
  {
    if seat == 0 then LeftFork(seat, n) else RightFork(seat, n)
  }

  function Second(seat: nat, n: nat): nat
    requires n > 0
  {
    if seat == 0 then RightFork(seat, n) else LeftFork(seat, n)
  }

  function Move(s: State, i: nat, pc: Pc): State
    requires i < |s.pc|
  {
    s.(pc := s.pc[i := pc])
  }

  function Grab(s: State, i: nat, fork: nat, pc: Pc): Option<State>
    requires i < |s.pc|
  {
    if fork < |s.forks| && s.forks[fork] == None
    then Some(Move(s, i, pc).(forks := s.forks[fork := Some(i)])) else None
  }

  function Drop(s: State, i: nat, fork: nat, pc: Pc): Option<State>
    requires i < |s.pc|
  {
    if fork < |s.forks| then Some(Move(s, i, pc).(forks := s.forks[fork := None])) else None
  }

  function Next(s: State, a: Action): Option<State> {
    if a.i >= |s.pc| || a.i >= |s.meals| then None
    else
      var i, n := a.i, |s.pc|;
      match a
      case LockFirst(_) => if s.pc[i] == Thinking then Grab(s, i, First(i, n), ToSecond) else None
      case LockSecond(_) => if s.pc[i] == ToSecond then Grab(s, i, Second(i, n), ToOwnPlate) else None
      case EatOwn(_) => if s.pc[i] == ToOwnPlate then Some(Move(s, i, ToRightPlate)) else None
      case EatRight(_) =>
        if s.pc[i] == ToRightPlate
        then Some(Move(s, i, ToUnlockRight).(meals := s.meals[i := s.meals[i] + 1])) else None
      case UnlockRight(_) => if s.pc[i] == ToUnlockRight then Drop(s, i, RightFork(i, n), ToUnlockLeft) else None
      case UnlockLeft(_) => if s.pc[i] == ToUnlockLeft then Drop(s, i, LeftFork(i, n), Thinking) else None
  }

  function Init(n: nat): State {
    State(seq(n, _ => None), seq(n, _ => Thinking), seq(n, _ => 0))
  }

  ghost predicate Reachable(s: State) {
    exists n: nat, acts :: n >= 2 && Exec(Next, Init(n), acts) == Some(s)
  }

  /** Philosopher i should have this fork, at this point of its program. */
  predicate Has(pc: Pc, i: nat, fork: nat, n: nat)
    requires n > 0
  {
    match pc
    case Thinking => false
    case ToSecond => fork == First(i, n)
    case ToUnlockLeft => fork == LeftFork(i, n)
    case _ => fork == LeftFork(i, n) || fork == RightFork(i, n)
  }

  ghost predicate ForkOk(s: State, fork: nat)
    requires fork < |s.forks| && |s.pc| > 0
  {
    forall i: nat :: i < |s.pc| ==> (s.forks[fork] == Some(i) <==> Has(s.pc[i], i, fork, |s.pc|))
  }

  ghost predicate Inv(s: State) {
    && |s.pc| >= 2 && |s.forks| == |s.pc| == |s.meals|
    && (forall fork: nat :: fork < |s.forks| ==> ForkOk(s, fork))
    && (forall fork: nat :: fork < |s.forks| && s.forks[fork].Some? ==> s.forks[fork].value < |s.pc|)
  }

  lemma TwoForks(i: nat, n: nat)
    requires n >= 2 && i < n
    ensures LeftFork(i, n) != RightFork(i, n) && RightFork(i, n) < n
    ensures RightFork(i, n) == if i == n - 1 then 0 else i + 1
  {}

  lemma InvStep(s: State, a: Action)
    requires Inv(s) && Next(s, a).Some?
    ensures Inv(Next(s, a).value)
  {
    var s', n := Next(s, a).value, |s.pc|;
    TwoForks(a.i, n);
    hide ToRight;
    forall fork: nat | fork < n ensures ForkOk(s', fork) {
      assert ForkOk(s, fork);
    }
  }

  lemma ReachableInv(s: State)
    requires Reachable(s)
    ensures Inv(s)
  {
    var n: nat, acts :| n >= 2 && Exec(Next, Init(n), acts) == Some(s);
    forall x, a | Inv(x) && Next(x, a).Some? ensures Inv(Next(x, a).value) {
      InvStep(x, a);
    }
    hide Inv, Next;
    InitInv(n);
    Invariant(Next, Inv, Init(n), acts);
  }

  lemma InitInv(n: nat)
    requires n >= 2
    ensures Inv(Init(n))
  {}

  // ---- Lock order

  /** Forks in the order in which they are ever taken: 0, n-1, n-2, .., 1. */
  function Rank(fork: nat, n: nat): nat {
    if fork == 0 || fork >= n then 0 else n - fork
  }

  lemma ForksAreTakenUpwards(i: nat, n: nat)
    requires n >= 2 && i < n
    ensures First(i, n) < n && Second(i, n) < n && Rank(First(i, n), n) < Rank(Second(i, n), n) < n
  {
    TwoForks(i, n);
  }

  /** The fork philosopher i is about to lock, if it is about to lock one. */
  function Wants(s: State, i: nat): Option<nat>
    requires i < |s.pc|
  {
    if s.pc[i] == Thinking then Some(First(i, |s.pc|))
    else if s.pc[i] == ToSecond then Some(Second(i, |s.pc|))
    else None
  }

  /** i is blocked by j. */
  ghost predicate WaitsFor(s: State, i: nat, j: nat) {
    i < |s.pc| && Wants(s, i).Some? && Wants(s, i).value < |s.forks| && s.forks[Wants(s, i).value] == Some(j)
  }

  /** Who blocks somebody holds a fork, and if it waits itself, it waits for a higher one. */
  lemma WaitingGoesUp(s: State, i: nat, j: nat)
    requires Inv(s) && WaitsFor(s, i, j)
    ensures j < |s.pc| && s.pc[j] != Thinking
    ensures s.pc[j] == ToSecond ==> Rank(Wants(s, i).value, |s.pc|) < Rank(Wants(s, j).value, |s.pc|)
  {
    assert ForkOk(s, Wants(s, i).value);
    ForksAreTakenUpwards(j, |s.pc|);
  }

  /** A chain of waits is a sequence of philosophers each blocked by the next. */
  ghost predicate Chain(s: State, c: seq<nat>) {
    forall k :: 0 <= k < |c| - 1 ==> WaitsFor(s, c[k], c[k + 1])
  }

  lemma {:induction false} ChainsGoUp(s: State, c: seq<nat>)
    requires Inv(s) && Chain(s, c) && |c| >= 2 && c[|c| - 1] < |s.pc| && s.pc[c[|c| - 1]] == ToSecond
    ensures c[0] < |s.pc| && Wants(s, c[0]).Some?
    ensures Rank(Wants(s, c[0]).value, |s.pc|) < Rank(Wants(s, c[|c| - 1]).value, |s.pc|)
  {
    WaitingGoesUp(s, c[0], c[1]);
    if |c| > 2 {
      assert WaitsFor(s, c[1], c[2]);
      var d := c[1..];
      forall k | 0 <= k < |d| - 1 ensures WaitsFor(s, d[k], d[k + 1]) {
        assert WaitsFor(s, c[k + 1], c[k + 1 + 1]);
      }
      ChainsGoUp(s, d);
    }
  }

  /** No deadlock cycle: a chain of waits never comes back to where it began. */
  lemma NoWaitCycle(s: State, c: seq<nat>)
    requires Reachable(s) && Chain(s, c) && |c| >= 2
    ensures c[0] != c[|c| - 1]
  {
    ReachableInv(s);
    if c[0] == c[|c| - 1] {
      assert WaitsFor(s, c[0], c[1]);
      assert WaitsFor(s, c[|c| - 2], c[|c| - 1]);
      WaitingGoesUp(s, c[|c| - 2], c[|c| - 1]);
      ChainsGoUp(s, c);
    }
  }

  /** The philosopher at the end of the waits that begin with i can go on. */
  lemma {:induction false} SomebodyMoves(s: State, i: nat) returns (a: Action)
    requires Inv(s) && i < |s.pc| && s.pc[i] != Thinking
    ensures Next(s, a).Some? && a.i < |s.pc| && s.pc[a.i] != Thinking
    decreases |s.pc| - if s.pc[i] == ToSecond then Rank(Second(i, |s.pc|), |s.pc|) else |s.pc|
  {
    TwoForks(i, |s.pc|);
    match s.pc[i]
    case ToSecond =>
      ForksAreTakenUpwards(i, |s.pc|);
      var fork := Second(i, |s.pc|);
      if s.forks[fork] == None {
        a := LockSecond(i);
      } else {
        var j := s.forks[fork].value;
        assert WaitsFor(s, i, j);
        WaitingGoesUp(s, i, j);
        if s.pc[j] == ToSecond { ForksAreTakenUpwards(j, |s.pc|); }
        a := SomebodyMoves(s, j);
      }
    case ToOwnPlate => a := EatOwn(i);
    case ToRightPlate => a := EatRight(i);
    case ToUnlockRight => a := UnlockRight(i);
    case ToUnlockLeft => a := UnlockLeft(i);
  }

  /** Deadlock freedom at every table: as long as somebody has a fork, somebody who has one can go on. */
  lemma NoDeadlock(s: State, i: nat)
    requires Reachable(s) && i < |s.pc| && s.pc[i] != Thinking
    ensures exists a :: Next(s, a).Some? && a.i < |s.pc| && s.pc[a.i] != Thinking
  {
    ReachableInv(s);
    var a := SomebodyMoves(s, i);
  }

  function StepsLeft(pc: Pc): nat {
    match pc
    case Thinking => 0
    case ToSecond => 5
    case ToOwnPlate => 4
    case ToRightPlate => 3
    case ToUnlockRight => 2
    case ToUnlockLeft => 1
  }

  /** Whoever has a fork gets to eat: unless somebody starts anew, every step of anybody brings the
      end of all meals begun one step nearer, and NoDeadlock says there is a step until then. */
  lemma MealsComeToAnEnd(s: State, a: Action)
    requires Next(s, a).Some?
    ensures Sum(Next(s, a).value.pc, StepsLeft) == Sum(s.pc, StepsLeft) + (if a.LockFirst? then 5 else -1)
    ensures Sum(s.pc, StepsLeft) == 0 <==> forall i :: 0 <= i < |s.pc| ==> s.pc[i] == Thinking
  {
    SumUpdate(s.pc, a.i, Next(s, a).value.pc[a.i], StepsLeft);
    SumZero(s.pc, StepsLeft);
    forall i | 0 <= i < |s.pc| ensures StepsLeft(s.pc[i]) == 0 <==> s.pc[i] == Thinking {}
  }

  /** The plate philosopher i is about to access. */
  function Accesses(s: State, i: nat): Option<nat>
    requires i < |s.pc|
  {
    if s.pc[i] == ToOwnPlate then Some(i)
    else if s.pc[i] == ToRightPlate then Some(ToRight(i, |s.pc|))
    else None
  }

  /** No plate is accessed by two philosophers at once. */
  lemma PlatesAreExclusive(s: State, i: nat, j: nat)
    requires Reachable(s) && i < |s.pc| && j < |s.pc| && i != j && Accesses(s, i).Some?
    ensures Accesses(s, i) != Accesses(s, j)
  {
    ReachableInv(s);
    TwoForks(i, |s.pc|);
    TwoForks(j, |s.pc|);
    assert ForkOk(s, Accesses(s, i).value);
  }

  // ---- Forks in hand, meals counted

  /** Which forks a philosopher holds, at every point of its program: one after the first lock, both
      from the second lock through both plates, the left one after unlocking the right. */
  lemma ForksInHand(s: State, i: nat, fork: nat)
    requires Reachable(s) && i < |s.pc| && fork < |s.forks|
    ensures var n := |s.pc|; var left, right := LeftFork(i, n), RightFork(i, n);
      s.forks[fork] == Some(i) <==> match s.pc[i]
        case Thinking => false
        case ToSecond => fork == if i == 0 then left else right
        case ToUnlockLeft => fork == left
        case _ => fork == left || fork == right
  {
    ReachableInv(s);
    assert ForkOk(s, fork);
  }

  /** How often i has picked up its first fork. */
  function Starts(acts: seq<Action>, i: nat): nat {
    if acts == [] then 0 else (if acts[0] == LockFirst(i) then 1 else 0) + Starts(acts[1..], i)
  }

  /** In a meal that has not been counted yet. */
  function Hungry(pc: Pc): nat {
    if pc == ToSecond || pc == ToOwnPlate || pc == ToRightPlate then 1 else 0
  }

  /** Over every run: the meals counted for i are the times it has picked up its first fork, less the
      one in which it has not yet come to the second plate. */
  lemma {:induction false} MealsAreCounted(s: State, acts: seq<Action>, s': State, i: nat)
    requires Exec(Next, s, acts) == Some(s') && i < |s.pc| && i < |s.meals|
    ensures i < |s'.pc| && i < |s'.meals|
    ensures s'.meals[i] + Hungry(s'.pc[i]) == s.meals[i] + Hungry(s.pc[i]) + Starts(acts, i)
    decreases |acts|
  {
    if acts != [] {
      MealStep(s, acts[0], i);
      hide Next, Hungry;
      MealsAreCounted(Next(s, acts[0]).value, acts[1..], s', i);
    }
  }

  lemma MealStep(s: State, a: Action, i: nat)
    requires Next(s, a).Some? && i < |s.pc| && i < |s.meals|
    ensures var s' := Next(s, a).value;
      && i < |s'.pc| && i < |s'.meals|
      && s'.meals[i] + Hungry(s'.pc[i]) == s.meals[i] + Hungry(s.pc[i]) + if a == LockFirst(i) then 1 else 0
  {}

  lemma LockStep(s: State, i: nat)
    requires i < |s.pc| && i < |s.meals|
    ensures var fork := First(i, |s.pc|);
      s.pc[i] == Thinking && fork < |s.forks| && s.forks[fork] == None ==>
        Next(s, LockFirst(i)) == Some(Move(s, i, ToSecond).(forks := s.forks[fork := Some(i)]))
    ensures var fork := Second(i, |s.pc|);
      s.pc[i] == ToSecond && fork < |s.forks| && s.forks[fork] == None ==>
        Next(s, LockSecond(i)) == Some(Move(s, i, ToOwnPlate).(forks := s.forks[fork := Some(i)]))
  {}

  lemma EatStep(s: State, i: nat)
    requires i < |s.pc| && i < |s.meals|
    ensures s.pc[i] == ToOwnPlate ==> Next(s, EatOwn(i)) == Some(Move(s, i, ToRightPlate))
    ensures s.pc[i] == ToRightPlate ==>
      Next(s, EatRight(i)) == Some(Move(s, i, ToUnlockRight).(meals := s.meals[i := s.meals[i] + 1]))
  {}

  lemma UnlockStep(s: State, i: nat)
    requires i < |s.pc| && i < |s.meals|
    ensures var fork := RightFork(i, |s.pc|);
      s.pc[i] == ToUnlockRight && fork < |s.forks| ==>
        Next(s, UnlockRight(i)) == Some(Move(s, i, ToUnlockLeft).(forks := s.forks[fork := None]))
    ensures var fork := LeftFork(i, |s.pc|);
      s.pc[i] == ToUnlockLeft && fork < |s.forks| ==>
        Next(s, UnlockLeft(i)) == Some(Move(s, i, Thinking).(forks := s.forks[fork := None]))
  {}

  /** A meal alone at the table: six steps, and all that has changed is the count of meals. */
  lemma MealAlone(s: State, i: nat)
    requires Reachable(s) && i < |s.pc| && forall j :: 0 <= j < |s.pc| ==> s.pc[j] == Thinking
    ensures i < |s.meals|
    ensures Exec(Next, s, [LockFirst(i)] + ([LockSecond(i)] + ([EatOwn(i)] + ([EatRight(i)] +
      ([UnlockRight(i)] + [UnlockLeft(i)]))))) == Some(s.(meals := s.meals[i := s.meals[i] + 1]))
  {
    ReachableInv(s);
    var n := |s.pc|;
    TwoForks(i, n);
    AllForksFree(s);
    hide Reachable, Inv, ToRight, LeftFork, RightFork;
    var a, b, l, r := First(i, n), Second(i, n), LeftFork(i, n), RightFork(i, n);
    assert (a == l && b == r) || (a == r && b == l);
    var s1 := Move(s, i, ToSecond).(forks := s.forks[a := Some(i)]);
    var s2 := Move(s1, i, ToOwnPlate).(forks := s1.forks[b := Some(i)]);
    var s3 := Move(s2, i, ToRightPlate);
    var s4 := Move(s3, i, ToUnlockRight).(meals := s.meals[i := s.meals[i] + 1]);
    var s5 := Move(s4, i, ToUnlockLeft).(forks := s4.forks[r := None]);
    var s6 := Move(s5, i, Thinking).(forks := s5.forks[l := None]);
    PutBack(s.pc, s.forks, i, l, r);
    hide Next, First, Second, Exec;
    LockStep(s, i);
    LockStep(s1, i);
    EatStep(s2, i);
    EatStep(s3, i);
    UnlockStep(s4, i);
    UnlockStep(s5, i);
    SixRun(s, s1, s2, s3, s4, s5, s6, i);
  }

  lemma SixRun(s: State, s1: State, s2: State, s3: State, s4: State, s5: State, s6: State, i: nat)
    requires Next(s, LockFirst(i)) == Some(s1) && Next(s1, LockSecond(i)) == Some(s2) && Next(s2, EatOwn(i)) == Some(s3)
    requires Next(s3, EatRight(i)) == Some(s4) && Next(s4, UnlockRight(i)) == Some(s5)
    requires Next(s5, UnlockLeft(i)) == Some(s6)
    ensures Exec(Next, s, [LockFirst(i)] + ([LockSecond(i)] + ([EatOwn(i)] + ([EatRight(i)] +
      ([UnlockRight(i)] + [UnlockLeft(i)]))))) == Some(s6)
  {
    hide Next;
    Nothing(Next, s6);
    Runs.First(Next, s5, UnlockLeft(i), []);
    assert [UnlockLeft(i)] + [] == [UnlockLeft(i)];
    Runs.First(Next, s4, UnlockRight(i), [UnlockLeft(i)]);
    Runs.First(Next, s3, EatRight(i), [UnlockRight(i)] + [UnlockLeft(i)]);
    Runs.First(Next, s2, EatOwn(i), [EatRight(i)] + ([UnlockRight(i)] + [UnlockLeft(i)]));
    Runs.First(Next, s1, LockSecond(i), [EatOwn(i)] + ([EatRight(i)] + ([UnlockRight(i)] + [UnlockLeft(i)])));
    Runs.First(Next, s, LockFirst(i),
      [LockSecond(i)] + ([EatOwn(i)] + ([EatRight(i)] + ([UnlockRight(i)] + [UnlockLeft(i)]))));
  }

  lemma PutBack(pc: seq<Pc>, forks: seq<Option<nat>>, i: nat, l: nat, r: nat)
    requires i < |pc| && pc[i] == Thinking
    requires l < |forks| && r < |forks| && l != r && forks[l] == None && forks[r] == None
    ensures var both := pc[i := ToSecond][i := ToOwnPlate][i := ToRightPlate];
      both[i := ToUnlockRight][i := ToUnlockLeft][i := Thinking] == pc
    ensures forks[l := Some(i)][r := Some(i)][r := None][l := None] == forks
    ensures forks[r := Some(i)][l := Some(i)][r := None][l := None] == forks
  {}

  lemma AllForksFree(s: State)
    requires Inv(s) && forall j :: 0 <= j < |s.pc| ==> s.pc[j] == Thinking
    ensures forall fork :: 0 <= fork < |s.forks| ==> s.forks[fork] == None
  {
    forall fork: nat | fork < |s.forks| ensures s.forks[fork] == None {
      assert ForkOk(s, fork);
    }
  }

  // ---- The objects

  /** The table and its guests; each method is one operation of the philosopher at a seat. */
  class Table {
    var forks: seq<Option<nat>>
    var meals: seq<nat>
    ghost var pc: seq<Pc>

    ghost function View(): State
      reads this
    {
      State(forks, pc, meals)
    }

    constructor (seats: nat)
      ensures View() == Init(seats)
    {
      forks := seq(seats, _ => None);
      meals := seq(seats, _ => 0);
      pc := seq(seats, _ => Thinking);
    }

    /** The first lock of AcquireForks. */
    method AcquireFirst(seat: nat)
      requires Next(View(), LockFirst(seat)).Some? && |forks| == |pc|
      modifies this
      ensures Some(View()) == Next(old(View()), LockFirst(seat))
    {
      if seat == 0 {
        forks := forks[seat := Some(seat)];
      } else {
        forks := forks[(seat + 1) % |forks| := Some(seat)];
      }
      pc := pc[seat := ToSecond];
    }

    /** The second lock of AcquireForks. */
    method AcquireSecond(seat: nat)
      requires Next(View(), LockSecond(seat)).Some? && |forks| == |pc|
      modifies this
      ensures Some(View()) == Next(old(View()), LockSecond(seat))
    {
      if seat == 0 {
        forks := forks[(seat + 1) % |forks| := Some(seat)];
      } else {
        forks := forks[seat := Some(seat)];
      }
      pc := pc[seat := ToOwnPlate];
    }

    /** The second access of Eat, and the meal. */
    method EatFromRight(seat: nat)
      requires Next(View(), EatRight(seat)).Some?
      modifies this
      ensures Some(View()) == Next(old(View()), EatRight(seat))
    {
      meals := meals[seat := meals[seat] + 1];
      pc := pc[seat := ToUnlockRight];
    }

    method ReleaseRight(seat: nat)
      requires Next(View(), UnlockRight(seat)).Some? && |forks| == |pc|
      modifies this
      ensures Some(View()) == Next(old(View()), UnlockRight(seat))
    {
      forks := forks[(seat + 1) % |forks| := None];
      pc := pc[seat := ToUnlockLeft];
    }

    method ReleaseLeft(seat: nat)
      requires Next(View(), UnlockLeft(seat)).Some?
      modifies this
      ensures Some(View()) == Next(old(View()), UnlockLeft(seat))
    {
      forks := forks[seat := None];
      pc := pc[seat := Thinking];
    }
  }
}
