/** The client rotate::Test of the barrier (tasks/condvar/barrier/tests/stress.cpp:64-98): n threads
    rotate a shared vector by one place per iteration, with one barrier before the writes and one
    after, and no other synchronisation. */
module Rotation {
  import opened Runs
  import Barrier

  /** Access number k of a thread falls between its k-th and its (k+1)-th Arrive:
      access 0 sets up slot t, access 2i+1 reads a slot, access 2i+2 writes the slot before it. */
  datatype State = State(
    b: Barrier.State,
    iterations: nat,
    vector: seq<nat>,
    value: seq<nat>,   // the local variable `value` of every thread
    did: seq<bool>)    // the thread has made its access since its last Arrive

  datatype Action = Access(t: nat) | Bar(a: Barrier.Action)

  function Slot(t: nat, i: nat, n: nat): nat
    requires n > 0
  {
    (t + i) % n
  }

  function PrevSlot(slot: nat, n: nat): nat
    requires n > 0
  {
    if slot > 0 then slot - 1 else n - 1
  }

  /** The slot that access k of thread t touches. */
  function Touched(t: nat, k: nat, n: nat): nat
    requires n > 0
  {
    if k == 0 then t
    else if k % 2 == 1 then Slot(t, k / 2, n)
    else PrevSlot(Slot(t, k / 2 - 1, n), n)
  }

  predicate Writes(k: nat) {
    k % 2 == 0
  }

  predicate MayAccess(s: State, t: nat) {
    t < |s.b.pc| && t < |s.did| && s.b.pc[t].Ready? && !s.did[t] && s.b.pc[t].k < s.b.calls
  }

  function Next(s: State, a: Action): Option<State> {
    match a
    case Access(t) =>
      if !MayAccess(s, t) || t >= |s.value| then None
      else
        var n, k := |s.b.pc|, s.b.pc[t].k;
        var slot := Touched(t, k, n);
        if slot >= |s.vector| then None
        else if k == 0 then Some(s.(vector := s.vector[slot := t], did := s.did[t := true]))
        else if k % 2 == 1 then Some(s.(value := s.value[t := s.vector[slot]], did := s.did[t := true]))
        else Some(s.(vector := s.vector[slot := s.value[t]], did := s.did[t := true]))
    case Bar(a) =>
      if a.t >= |s.did| || a.t >= |s.b.pc| || (a.Derive? && !s.did[a.t]) then None
      else match Barrier.Next(s.b, a)
        case None => None
        case Some(b) =>
          Some(s.(b := b, did := if a.t < |b.pc| && b.pc[a.t].Ready? then s.did[a.t := false] else s.did))
  }

  function Init(n: nat, iterations: nat): State {
    State(Barrier.Init(n, 1 + 2 * iterations), iterations,
          seq(n, _ => 0), seq(n, _ => 0), seq(n, _ => false))
  }

  ghost predicate Reachable(s: State) {
    exists n: nat, m: nat, acts :: 1 <= n < Barrier.SIZE && Exec(Next, Init(n, m), acts) == Some(s)
  }

  // ---- Arithmetic of the slots

  lemma {:induction false} ModPlusMultiple(a: nat, k: nat, n: nat)
    requires n > 0
    ensures (a + k * n) % n == a % n
  {
    if k > 0 {
      ModPlusMultiple(a, k - 1, n);
      assert a + k * n == (a + (k - 1) * n) + n;
      ModPlusN(a + (k - 1) * n, n);
    }
  }

  lemma ModPlusN(a: nat, n: nat)
    requires n > 0
    ensures (a + n) % n == a % n
  {
    var q := a / n;
    assert a == q * n + a % n;
    assert a + n == (q + 1) * n + a % n;
    Quotient(a + n, q + 1, a % n, n);
  }

  lemma MultiplesLieApart(p: nat, q: nat, n: nat)
    requires p < q
    ensures p * n + n <= q * n
  {
    var d := q - p - 1;
    assert q * n == p * n + n + d * n;
  }

  /** Quotient and remainder are unique. */
  lemma Unique(p: nat, q: nat, r: nat, r': nat, n: nat)
    requires n > 0 && r < n && r' < n && p * n + r == q * n + r'
    ensures p == q && r == r'
  {
    if p < q {
      MultiplesLieApart(p, q, n);
    } else if q < p {
      MultiplesLieApart(q, p, n);
    }
  }

  lemma Quotient(a: nat, q: nat, r: nat, n: nat)
    requires n > 0 && r < n && a == q * n + r
    ensures a % n == r
  {
    assert a == (a / n) * n + a % n;
    Unique(a / n, q, a % n, r, n);
  }

  lemma ModAdd(a: nat, b: nat, n: nat)
    requires n > 0
    ensures (a % n + b) % n == (a + b) % n
  {
    var q := a / n;
    assert a + b == (a % n + b) + q * n;
    ModPlusMultiple(a % n + b, q, n);
  }

  lemma PrevSlotIsMinusOne(t: nat, i: nat, n: nat)
    requires n > 0
    ensures PrevSlot(Slot(t, i, n), n) == (t + i + (n - 1)) % n
  {
    var slot := (t + i) % n;
    ModAdd(t + i, n - 1, n);
    if slot > 0 {
      ModPlusN(slot - 1, n);
      assert slot + (n - 1) == (slot - 1) + n;
      Quotient(slot - 1, 0, slot - 1, n);
    } else {
      Quotient(n - 1, 0, n - 1, n);
    }
  }

  /** No two threads write the same slot in the same phase. */
  lemma TouchedInjective(t: nat, u: nat, k: nat, n: nat)
    requires t < n && u < n && Touched(t, k, n) == Touched(u, k, n)
    ensures t == u
  {
    if k > 0 {
      var i := if k % 2 == 1 then k / 2 else k / 2 - 1;
      assert Slot(t, i, n) == Slot(u, i, n);
      SlotInjective(t, u, i, n);
    }
  }

  lemma SlotInjective(t: nat, u: nat, i: nat, n: nat)
    requires t < n && u < n && (t + i) % n == (u + i) % n
    ensures t == u
  {
    var p, q, r := (t + i) / n, (u + i) / n, (t + i) % n;
    assert t + i == p * n + r && u + i == q * n + r;
    if p < q {
      MultiplesLieApart(p, q, n);
    } else if q < p {
      MultiplesLieApart(q, p, n);
    }
  }

  /** The thread whose write of iteration i goes to slot j. */
  function WriterOf(j: nat, i: nat, n: nat): nat
    requires n > 0
  {
    (j + 1 + i * (n - 1)) % n
  }

  lemma EverySlotIsWritten(j: nat, i: nat, n: nat)
    requires j < n
    ensures WriterOf(j, i, n) < n && PrevSlot(Slot(WriterOf(j, i, n), i, n), n) == j
  {
    var t := WriterOf(j, i, n);
    PrevSlotIsMinusOne(t, i, n);
    ModAdd(j + 1 + i * (n - 1), i + (n - 1), n);
    assert j + 1 + i * (n - 1) + (i + (n - 1)) == j + (i + 1) * n;
    ModPlusMultiple(j, i + 1, n);
    Quotient(j, 0, j, n);
  }

  /** What thread t reads in iteration i is what belongs, one iteration later, one slot before. */
  lemma ValueFits(t: nat, i: nat, n: nat)
    requires t < n
    ensures (Slot(t, i, n) + i) % n == (t + 2 * i) % n
    ensures (PrevSlot(Slot(t, i, n), n) + (i + 1)) % n == (t + 2 * i) % n
  {
    ModAdd(t + i, i, n);
    PrevSlotIsMinusOne(t, i, n);
    PrevFits(t + i, i, n);
  }

  lemma PrevFits(a: nat, i: nat, n: nat)
    requires n > 0
    ensures ((a + (n - 1)) % n + (i + 1)) % n == (a + i) % n
  {
    ModAdd(a + (n - 1), i + 1, n);
    ModPlusN(a + i, n);
    assert a + (n - 1) + (i + 1) == a + i + n;
  }

  // ---- The invariant

  /** t has made access number `phase`. */
  predicate Done(s: State, t: nat, phase: nat)
    requires t < |s.b.pc| && t < |s.did|
  {
    s.b.pc[t].k == phase && (s.b.pc[t].Ready? ==> s.did[t])
  }

  /** The slots after i complete rotations, as the test expects them at the end. */
  function Rotated(j: nat, i: nat, n: nat): nat
    requires n > 0
  {
    (j + i) % n
  }

  predicate Shape(s: State) {
    var n := |s.b.pc|;
    n >= 1 && |s.vector| == n && |s.value| == n && |s.did| == n && s.b.calls == 1 + 2 * s.iterations
  }

  /** While the barrier is in round `phase`: before a phase of writes all values are in the
      threads' hands, before a phase of reads all of them are in the vector, and the accesses of
      the phase made so far have done their part. */
  ghost predicate Data(s: State, phase: nat)
    requires Shape(s)
  {
    var n := |s.b.pc|;
    if phase == 0 then
      forall t: nat :: t < n && Done(s, t, 0) ==> s.vector[t] == t
    else if phase % 2 == 1 then
      var i := phase / 2;
      && (forall j: nat :: j < n ==> s.vector[j] == Rotated(j, i, n))
      && (forall t: nat :: t < n && Done(s, t, phase) ==> s.value[t] == Rotated(t, 2 * i, n))
    else
      var i := phase / 2 - 1;
      && (forall t: nat :: t < n ==> s.value[t] == Rotated(t, 2 * i, n))
      && (forall t: nat :: t < n && Done(s, t, phase) ==>
            s.vector[Touched(t, phase, n)] == Rotated(Touched(t, phase, n), i + 1, n))
  }

  ghost predicate Inv(s: State) {
    Shape(s) && Barrier.Inv(s.b) && Data(s, s.b.round)
  }

  /** An access changes what its own thread has done in this phase and nothing else of the kind. */
  lemma AccessMarks(s: State, t: nat)
    requires Inv(s) && Next(s, Access(t)).Some?
    ensures var s' := Next(s, Access(t)).value; var n, k := |s.b.pc|, s.b.round;
      && Shape(s') && s'.b == s.b && t < n && Done(s', t, k) && s.b.pc[t].k == k
      && forall u: nat :: u < n && u != t ==> (Done(s', u, k) <==> Done(s, u, k))
  {}

  lemma ReadStep(s: State, t: nat)
    requires Inv(s) && Next(s, Access(t)).Some? && s.b.round % 2 == 1
    ensures Inv(Next(s, Access(t)).value)
  {
    AccessMarks(s, t);
    ValueFits(t, s.b.round / 2, |s.b.pc|);
    hide Barrier.Inv, Done;
  }

  lemma SetupStep(s: State, t: nat)
    requires Inv(s) && Next(s, Access(t)).Some? && s.b.round == 0
    ensures Inv(Next(s, Access(t)).value)
  {
    AccessMarks(s, t);
    hide Barrier.Inv, Done;
  }

  lemma WriteFits(t: nat, k: nat, n: nat)
    requires t < n && k > 0 && k % 2 == 0
    ensures Touched(t, k, n) < n
    ensures Rotated(Touched(t, k, n), k / 2, n) == Rotated(t, 2 * (k / 2 - 1), n)
    ensures forall u: nat :: u < n && u != t ==> Touched(u, k, n) != Touched(t, k, n)
  {
    ValueFits(t, k / 2 - 1, n);
    forall u: nat | u < n && u != t ensures Touched(u, k, n) != Touched(t, k, n) {
      if Touched(u, k, n) == Touched(t, k, n) { TouchedInjective(u, t, k, n); }
    }
  }

  lemma WriteStep(s: State, t: nat)
    requires Inv(s) && Next(s, Access(t)).Some? && s.b.round % 2 == 0 && s.b.round > 0
    ensures Inv(Next(s, Access(t)).value)
  {
    AccessMarks(s, t);
    WriteFits(t, s.b.round, |s.b.pc|);
    hide Barrier.Inv, Done, Touched, Rotated;
  }

  lemma AccessStep(s: State, t: nat)
    requires Inv(s) && Next(s, Access(t)).Some?
    ensures Inv(Next(s, Access(t)).value)
  {
    if s.b.round == 0 {
      SetupStep(s, t);
    } else if s.b.round % 2 == 1 {
      ReadStep(s, t);
    } else {
      WriteStep(s, t);
    }
  }

  /** When the barrier closes a round, every thread has made its access of that round. */
  lemma RoundStep(s: State)
    requires Shape(s) && Data(s, s.b.round)
    requires forall t: nat :: t < |s.b.pc| ==> Done(s, t, s.b.round)
    ensures var n, k := |s.b.pc|, s.b.round + 1;
      if k % 2 == 1 then forall j: nat :: j < n ==> s.vector[j] == Rotated(j, k / 2, n)
      else forall t: nat :: t < n ==> s.value[t] == Rotated(t, 2 * (k / 2 - 1), n)
  {
    var n, k := |s.b.pc|, s.b.round;
    if k == 0 {
      forall j: nat | j < n ensures s.vector[j] == Rotated(j, 0, n) {
        assert Done(s, j, 0);
        Quotient(j, 0, j, n);
      }
    } else if k % 2 == 0 {
      forall j: nat | j < n ensures s.vector[j] == Rotated(j, k / 2, n) {
        EverySlotIsWritten(j, k / 2 - 1, n);
        assert Done(s, WriterOf(j, k / 2 - 1, n), k);
      }
    }
  }

  /** A barrier step completes no access, and the step that ends a round finds all accesses of
      the round done and none of the next. */
  lemma BarrierMarks(s: State, a: Barrier.Action)
    requires Inv(s) && Next(s, Bar(a)).Some?
    ensures var s' := Next(s, Bar(a)).value; var n, k, k' := |s.b.pc|, s.b.round, s'.b.round;
      && Shape(s') && |s'.b.pc| == n && s'.vector == s.vector && s'.value == s.value
      && (k' == k || k' == k + 1)
      && (k' == k ==> forall u: nat :: u < n && Done(s', u, k) ==> Done(s, u, k))
      && (k' != k ==> forall u: nat :: u < n ==> Done(s, u, k) && !Done(s', u, k'))
  {}

  lemma BarrierStep(s: State, a: Barrier.Action)
    requires Inv(s) && Next(s, Bar(a)).Some?
    ensures Inv(Next(s, Bar(a)).value)
  {
    Barrier.InvStep(s.b, a);
    BarrierMarks(s, a);
    hide Barrier.Inv, Done, Touched, Rotated;
    var s' := Next(s, Bar(a)).value;
    if s'.b.round != s.b.round {
      RoundStep(s);
    }
  }

  lemma ReachableInv(s: State)
    requires Reachable(s)
    ensures Inv(s)
  {
    var n: nat, m: nat, acts :| 1 <= n < Barrier.SIZE && Exec(Next, Init(n, m), acts) == Some(s);
    Barrier.InitInv(n, 1 + 2 * m);
    forall x, a | Inv(x) && Next(x, a).Some? ensures Inv(Next(x, a).value) {
      match a
      case Access(t) => AccessStep(x, t);
      case Bar(b) => BarrierStep(x, b);
    }
    Invariant(Next, Inv, Init(n, m), acts);
  }

  // ---- What the test relies on

  /** Under every schedule, a thread that has finished its loop finds in its own slot what the test
      asserts, and goes on finding it while others are still on their way out. */
  lemma VectorIsRotated(s: State, t: nat)
    requires Reachable(s) && t < |s.b.pc| && s.b.pc[t] == Barrier.Ready(1 + 2 * s.iterations)
    ensures t < |s.vector| && s.vector[t] == (t + s.iterations) % |s.b.pc|
  {
    ReachableInv(s);
    assert s.b.round == 1 + 2 * s.iterations;
    hide Reachable, Barrier.Inv;
    var phase := s.b.round;
    assert phase % 2 == 1 && phase / 2 == s.iterations;
    assert Data(s, phase) && s.vector[t] == Rotated(t, phase / 2, |s.b.pc|);
  }

  /** Freedom from data races: two threads that could both access the vector now are in the same
      phase, which has only reads, or only writes to different slots. */
  lemma NoDataRace(s: State, t: nat, u: nat)
    requires Reachable(s) && t != u && MayAccess(s, t) && MayAccess(s, u)
    ensures s.b.pc[t].k == s.b.pc[u].k
    ensures var n, k := |s.b.pc|, s.b.pc[t].k; Writes(k) ==> Touched(t, k, n) != Touched(u, k, n)
  {
    ReachableInv(s);
    if Touched(t, s.b.pc[t].k, |s.b.pc|) == Touched(u, s.b.pc[t].k, |s.b.pc|) {
      TouchedInjective(t, u, s.b.pc[t].k, |s.b.pc|);
    }
  }
}
