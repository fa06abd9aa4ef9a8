/** The client ForkTester of the fibers (tasks/coroutine/tests/fibers.cpp:128-161): a fiber that
    spawns two smaller ones of its kind, or counts a leaf. */
module Forks {
  import opened Runs
  import opened Counting
  import opened Fibers

  function Fib(n: nat): nat {
    if n < 2 then n else Fib(n - 2) + Fib(n - 1)
  }

  /** MakeForker(d). */
  function Forker(d: nat): seq<Op> {
    if d > 2 then [Op.Spawn(Forker(d - 2)), Op.Spawn(Forker(d - 1))] else [Op.Leaf]
  }

  lemma TwoOps(a: Op, b: Op)
    ensures LeavesOf([a, b]) == LeavesOf([a]) + LeavesOf([b])
  {
    assert [a, b][1..] == [b] && [a][1..] == [];
  }

  lemma {:induction false} ForkerHasFibLeaves(d: nat)
    requires d >= 1
    ensures LeavesOf(Forker(d)) == Fib(d)
  {
    if d > 2 {
      ForkerHasFibLeaves(d - 2);
      ForkerHasFibLeaves(d - 1);
      TwoOps(Op.Spawn(Forker(d - 2)), Op.Spawn(Forker(d - 1)));
      OneOp(Op.Spawn(Forker(d - 2)));
      OneOp(Op.Spawn(Forker(d - 1)));
    } else {
      OneOp(Op.Leaf);
    }
  }

  /** Explode(d): on any number of workers and under every schedule, when a pool into which nothing
      but Forker(d) was spawned comes to rest, exactly Fib(d) leaves have been counted. */
  lemma ExplodeCountsFib(s: State, d: nat)
    requires Reachable(s) && Quiet(s) && s.outside == [Forker(d)] && d >= 1
    ensures s.leaves == Fib(d)
  {
    QuietMeansAllDone(s);
    ForkerHasFibLeaves(d);
    assert s.outside[1..] == [];
  }

  /** The test's own figure. */
  lemma ExplodeTwenty(s: State)
    requires Reachable(s) && Quiet(s) && s.outside == [Forker(20)]
    ensures s.leaves == 6765
  {
    ExplodeCountsFib(s, 20);
    assert Fib(10) == 55 && Fib(11) == 89;
    assert Fib(12) == 144 && Fib(13) == 233;
    assert Fib(14) == 377 && Fib(15) == 610;
    assert Fib(16) == 987 && Fib(17) == 1597;
    assert Fib(18) == 2584 && Fib(19) == 4181;
  }

  /** And it does come to rest: after s, every run without further spawning from outside has at most
      Measure(s) steps, and as long as the pool is not at rest some step is possible. */
  lemma ExplodeEnds(s: State, acts: seq<Action>, s': State)
    requires Reachable(s) && Exec(Next, s, acts) == Some(s')
    requires forall k :: 0 <= k < |acts| ==> !acts[k].SpawnOutside?
    requires exists t :: 0 <= t < |s'.threads| && s'.threads[t].worker
    ensures |acts| <= Measure(s)
    ensures Reachable(s')
    ensures !Quiet(s') ==> |acts| < Measure(s) && exists a: Action :: !a.SpawnOutside? && Next(s', a).Some?
  {
    ReachableFull(s);
    EveryScheduleTakesAsLong(s, acts, s');
    ReachableOn(s, acts, s');
    if !Quiet(s') {
      NotQuietMeansProgress(s');
      var a: Action :| !a.SpawnOutside? && Next(s', a).Some?;
      ReachableFull(s');
      LedgerStep(s', a);
    }
  }

  lemma ReachableOn(s: State, acts: seq<Action>, s': State)
    requires Reachable(s) && Exec(Next, s, acts) == Some(s')
    ensures Reachable(s')
  {
    hide Next, Init;
    var n: nat, m: nat, before :| Exec(Next, Init(n, m), before) == Some(s);
    Split(Next, Init(n, m), before, acts);
    assert Exec(Next, Init(n, m), before + acts) == Some(s');
  }
}
