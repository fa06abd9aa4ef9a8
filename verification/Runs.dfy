/** Interleavings of atomic steps.

    Every protocol of this project is a partial function `next`: what one atomic action does to
    the shared state, or `None` when the action is not possible there.  A run is a sequence of
    actions; `Exec` says where it leads.  Sequentially consistent atomics are assumed throughout. */
module Runs {

  datatype Option<+T> = None | Some(value: T)

  /** The state a run leads to, or None if some action of it was not possible. */
  function Exec<S, A>(next: (S, A) -> Option<S>, s: S, acts: seq<A>): Option<S> {
    if acts == [] then Some(s)
    else match next(s, acts[0])
      case None => None
      case Some(s1) => Exec(next, s1, acts[1..])
  }

  /** What every possible step keeps holds at the end of every run. */
  lemma {:induction false} Invariant<S(!new), A(!new)>(next: (S, A) -> Option<S>, inv: S -> bool, s: S, acts: seq<A>)
    requires inv(s)
    requires forall x, a :: inv(x) && next(x, a).Some? ==> inv(next(x, a).value)
    ensures Exec(next, s, acts).Some? ==> inv(Exec(next, s, acts).value)
  {
    if acts != [] && next(s, acts[0]).Some? {
      Invariant(next, inv, next(s, acts[0]).value, acts[1..]);
    }
  }

  /** A run can be cut anywhere. */
  lemma {:induction false} Split<S, A>(next: (S, A) -> Option<S>, s: S, a: seq<A>, b: seq<A>)
    ensures var mid := Exec(next, s, a);
            Exec(next, s, a + b) == if mid.None? then None else Exec(next, mid.value, b)
  {
    if a == [] {
      assert a + b == b;
    } else {
      assert (a + b)[1..] == a[1..] + b;
      if next(s, a[0]).Some? {
        Split(next, next(s, a[0]).value, a[1..], b);
      }
    }
  }

  lemma First<S, A>(next: (S, A) -> Option<S>, s: S, a: A, rest: seq<A>)
    ensures Exec(next, s, [a] + rest) == if next(s, a).None? then None else Exec(next, next(s, a).value, rest)
  {
    assert ([a] + rest)[1..] == rest;
  }

  lemma Nothing<S, A>(next: (S, A) -> Option<S>, s: S)
    ensures Exec(next, s, []) == Some(s)
  {}

  lemma Extend<S, A>(next: (S, A) -> Option<S>, s: S, acts: seq<A>, a: A)
    requires Exec(next, s, acts).Some?
    ensures Exec(next, s, acts + [a]) == next(Exec(next, s, acts).value, a)
  {
    Split(next, s, acts, [a]);
    First(next, Exec(next, s, acts).value, a, []);
    assert [a] + [] == [a];
  }
}
