/** solutions::TicketLock (tasks/mutex/try-lock/ticket_lock.hpp): tickets are size_t and wrap. */
module TicketLock {
  import opened Runs

  const M := 0x1_0000_0000_0000_0000

  /** In Spinning and Critical, number is the ticket without wrap-around. */
  datatype Pc =
    | Idle
    | GotNext(n: nat)   // TryLock has loaded next_free_ticket_, owner_ticket_ to come
    | GotOwner(o: nat)  // or the other way round: the order of the two loads is open
    | SawFree           // TryLock found them equal and calls Lock
    | Spinning(ticket: nat, number: nat)
    | Critical(number: nat)

  datatype State = State(
    next: nat, owner: nat,
    taken: nat, served: nat, // next_free_ticket_ and owner_ticket_ without wrap-around
    queue: seq<nat>,         // who holds the tickets served, .., taken - 1
    pc: seq<Pc>)

  datatype Action =
    | FetchAdd(t: nat)   // Lock takes a ticket
    | Spin(t: nat)       // one test of the loop
    | Unlock(t: nat)
    | LoadNext(t: nat) | LoadOwner(t: nat)

  function Go(s: State, t: nat, pc: Pc): State
    requires t < |s.pc|
  {
    s.(pc := s.pc[t := pc])
  }

  function Next(s: State, a: Action): Option<State> {
    if a.t >= |s.pc| then None
    else
      var t, pc := a.t, s.pc[a.t];
      match a
      case FetchAdd(_) =>
        if pc.Idle? || pc.SawFree? then
          Some(Go(s, t, Spinning(s.next, s.taken))
               .(next := (s.next + 1) % M, taken := s.taken + 1, queue := s.queue + [t]))
        else None
      case Spin(_) =>
        if !pc.Spinning? then None
        else if pc.ticket != s.owner then Some(s)
        else Some(Go(s, t, Critical(pc.number)))
      case Unlock(_) =>
        if pc.Critical? then
          Some(Go(s, t, Idle).(owner := (s.owner + 1) % M, served := s.served + 1,
                               queue := if s.queue == [] then [] else s.queue[1..]))
        else None
      case LoadNext(_) =>
        if pc.Idle? then Some(Go(s, t, GotNext(s.next)))
        else if pc.GotOwner? then Some(Go(s, t, if s.next == pc.o then SawFree else Idle))
        else None
      case LoadOwner(_) =>
        if pc.Idle? then Some(Go(s, t, GotOwner(s.owner)))
        else if pc.GotNext? then Some(Go(s, t, if pc.n == s.owner then SawFree else Idle))
        else None
  }

  function Init(threads: nat): State {
    State(0, 0, 0, 0, [], seq(threads, _ => Idle))
  }

  /** States of programs with at most M threads. */
  ghost predicate Reachable(s: State) {
    exists n: nat, acts :: n <= M && Exec(Next, Init(n), acts) == Some(s)
  }

  predicate Holds(pc: Pc) {
    pc.Spinning? || pc.Critical?
  }

  /** The j-th in the queue holds ticket served + j, and only the first can be in the critical section. */
  ghost predicate PlaceOk(s: State, j: nat)
    requires j < |s.queue|
  {
    var t := s.queue[j];
    && t < |s.pc| && Holds(s.pc[t]) && s.pc[t].number == s.served + j
    && (s.pc[t].Spinning? ==> s.pc[t].ticket == (s.served + j) % M)
    && (s.pc[t].Critical? ==> j == 0)
  }

  ghost predicate HolderOk(s: State, t: nat)
    requires t < |s.pc|
  {
    Holds(s.pc[t]) ==>
      var n := s.pc[t].number;
      s.served <= n < s.served + |s.queue| && s.queue[n - s.served] == t
  }

  ghost predicate Inv(s: State) {
    && s.next == s.taken % M && s.owner == s.served % M
    && s.taken == s.served + |s.queue|
    && |s.pc| <= M
    && (forall j: nat :: j < |s.queue| ==> PlaceOk(s, j))
    && (forall t: nat :: t < |s.pc| ==> HolderOk(s, t))
  }

  /** A queue of different threads is no longer than there are threads. */
  lemma {:induction false} Pigeons(q: seq<nat>, n: nat)
    requires forall i :: 0 <= i < |q| ==> q[i] < n
    requires forall i, j :: 0 <= i < j < |q| ==> q[i] != q[j]
    ensures |q| <= n
  {
    if q != [] {
      assert 0 <= q[0] < n;
      if i :| 0 <= i < |q| && q[i] == n - 1 {
        var r := q[..i] + q[i+1..];
        forall k | 0 <= k < |r| ensures r[k] < n - 1 {
          assert r[k] == q[if k < i then k else k + 1];
        }
        Pigeons(r, n - 1);
      } else {
        Pigeons(q, n - 1);
      }
    }
  }

  lemma QueueIsShort(s: State)
    requires Inv(s)
    ensures |s.queue| <= |s.pc|
  {
    forall i, j | 0 <= i < j < |s.queue| ensures s.queue[i] != s.queue[j] {
      assert PlaceOk(s, i) && PlaceOk(s, j);
    }
    forall i | 0 <= i < |s.queue| ensures s.queue[i] < |s.pc| {
      assert PlaceOk(s, i);
    }
    Pigeons(s.queue, |s.pc|);
  }

  lemma FetchAddStep(s: State, t: nat)
    requires Inv(s) && Next(s, FetchAdd(t)).Some?
    ensures Inv(Next(s, FetchAdd(t)).value)
  {
    var s' := Next(s, FetchAdd(t)).value;
    forall j: nat | j < |s'.queue| ensures PlaceOk(s', j) {
      if j < |s.queue| { assert PlaceOk(s, j); }
    }
    forall u: nat | u < |s'.pc| ensures HolderOk(s', u) {
      assert HolderOk(s, u);
    }
  }

  lemma UnlockStep(s: State, t: nat)
    requires Inv(s) && Next(s, Unlock(t)).Some?
    ensures Inv(Next(s, Unlock(t)).value)
  {
    var s' := Next(s, Unlock(t)).value;
    assert HolderOk(s, t);
    assert PlaceOk(s, s.pc[t].number - s.served);
    assert s.queue[0] == t;
    forall j: nat | j < |s'.queue| ensures PlaceOk(s', j) {
      assert PlaceOk(s, j + 1);
    }
    forall u: nat | u < |s'.pc| ensures HolderOk(s', u) {
      assert HolderOk(s, u);
      if u != t && Holds(s.pc[u]) {
        assert s.pc[u].number != s.served;
      }
    }
  }

  /** The distance of a ticket from the owner, as the wrapped words show it. */
  function Distance(ticket: nat, owner: nat): nat {
    (ticket + M - owner % M) % M
  }

  lemma DistanceIsPosition(number: nat, served: nat)
    requires served <= number < served + M
    ensures Distance(number % M, served % M) == number - served
    ensures number % M == served % M <==> number == served
  {
    var d := number - served;
    var a, b := number % M, served % M;
    var p, q := number / M, served / M;
    assert number == p * M + a && served == q * M + b;
    assert d == (p - q) * M + (a - b);
    assert p - q == 0 || p - q == 1;
  }

  lemma SpinStep(s: State, t: nat)
    requires Inv(s) && Next(s, Spin(t)).Some?
    ensures Inv(Next(s, Spin(t)).value)
  {
    var s' := Next(s, Spin(t)).value;
    assert HolderOk(s, t);
    QueueIsShort(s);
    var n := s.pc[t].number;
    assert PlaceOk(s, n - s.served);
    DistanceIsPosition(n, s.served);
    forall j: nat | j < |s'.queue| ensures PlaceOk(s', j) {
      assert PlaceOk(s, j);
    }
    forall u: nat | u < |s'.pc| ensures HolderOk(s', u) {
      assert HolderOk(s, u);
    }
  }

  lemma LoadStep(s: State, a: Action)
    requires Inv(s) && Next(s, a).Some? && (a.LoadNext? || a.LoadOwner?)
    ensures Inv(Next(s, a).value)
  {
    var s' := Next(s, a).value;
    forall j: nat | j < |s'.queue| ensures PlaceOk(s', j) {
      assert PlaceOk(s, j);
    }
    forall u: nat | u < |s'.pc| ensures HolderOk(s', u) {
      assert HolderOk(s, u);
    }
  }

  lemma InvStep(s: State, a: Action)
    requires Inv(s) && Next(s, a).Some?
    ensures Inv(Next(s, a).value)
  {
    match a
    case FetchAdd(t) => FetchAddStep(s, t);
    case Spin(t) => SpinStep(s, t);
    case Unlock(t) => UnlockStep(s, t);
    case _ => LoadStep(s, a);
  }

  lemma ReachableInv(s: State)
    requires Reachable(s)
    ensures Inv(s)
  {
    var n: nat, acts :| n <= M && Exec(Next, Init(n), acts) == Some(s);
    forall x, a | Inv(x) && Next(x, a).Some? ensures Inv(Next(x, a).value) {
      InvStep(x, a);
    }
    hide Inv, Next;
    InitInv(n);
    Invariant(Next, Inv, Init(n), acts);
  }

  lemma InitInv(n: nat)
    requires n <= M
    ensures Inv(Init(n))
  {}

  // ---- What the lock promises

  /** Where a ticket holder stands: the wrapped words show its place in the queue. */
  lemma Position(s: State, t: nat)
    requires Inv(s) && t < |s.pc| && Holds(s.pc[t])
    ensures var n := s.pc[t].number;
      && s.served <= n < s.served + |s.queue| && s.queue[n - s.served] == t
      && (s.pc[t].Critical? ==> n == s.served)
      && (s.pc[t].Spinning? ==>
            && Distance(s.pc[t].ticket, s.owner) == n - s.served
            && (s.pc[t].ticket == s.owner <==> n == s.served))
  {
    assert HolderOk(s, t) && PlaceOk(s, s.pc[t].number - s.served);
    QueueIsShort(s);
    DistanceIsPosition(s.pc[t].number, s.served);
  }

  /** With at most M threads, never are two in the critical section. */
  lemma MutualExclusion(s: State, t: nat, u: nat)
    requires Reachable(s) && t < u < |s.pc|
    ensures !(s.pc[t].Critical? && s.pc[u].Critical?)
  {
    ReachableInv(s);
    if s.pc[t].Critical? {
      Position(s, t);
      assert s.queue[0] == t;
    }
    if s.pc[u].Critical? {
      Position(s, u);
    }
  }

  lemma AddInside(a: nat, b: nat)
    ensures (a % M + b) % M == (a + b) % M
  {}

  /** The outstanding tickets are exactly the residues from owner up to next, one thread each. */
  lemma OutstandingTickets(s: State)
    requires Reachable(s)
    ensures s.next == (s.owner + |s.queue|) % M && |s.queue| <= |s.pc|
    ensures forall t: nat :: t < |s.pc| ==> (Holds(s.pc[t]) <==> t in s.queue)
    ensures forall j: nat :: j < |s.queue| ==>
      s.queue[j] < |s.pc| && (s.pc[s.queue[j]].Spinning? ==> s.pc[s.queue[j]].ticket == (s.owner + j) % M)
    ensures forall i, j :: 0 <= i < j < |s.queue| ==> s.queue[i] != s.queue[j]
  {
    ReachableInv(s);
    QueueIsShort(s);
    AddInside(s.served, |s.queue|);
    forall j: nat | j < |s.queue|
      ensures s.queue[j] < |s.pc| && (s.pc[s.queue[j]].Spinning? ==> s.pc[s.queue[j]].ticket == (s.owner + j) % M)
    {
      assert PlaceOk(s, j);
      AddInside(s.served, j);
    }
    forall i, j | 0 <= i < j < |s.queue| ensures s.queue[i] != s.queue[j] {
      assert PlaceOk(s, i) && PlaceOk(s, j);
    }
    forall t: nat | t < |s.pc| ensures Holds(s.pc[t]) <==> t in s.queue {
      HolderIsQueued(s, t);
    }
    hide Inv;
  }

  lemma HolderIsQueued(s: State, t: nat)
    requires Inv(s) && t < |s.pc|
    ensures Holds(s.pc[t]) <==> t in s.queue
  {
    assert HolderOk(s, t);
    if j: nat :| j < |s.queue| && s.queue[j] == t {
      assert PlaceOk(s, j);
    }
  }

  function Unlocks(acts: seq<Action>): nat {
    if acts == [] then 0 else (if acts[0].Unlock? then 1 else 0) + Unlocks(acts[1..])
  }

  lemma {:induction false} UnlocksServe(s: State, acts: seq<Action>, s': State)
    requires Exec(Next, s, acts) == Some(s')
    ensures s'.served == s.served + Unlocks(acts)
    decreases |acts|
  {
    if acts != [] {
      UnlocksServe(Next(s, acts[0]).value, acts[1..], s');
    }
  }

  lemma {:induction false} StaysReachable(s: State, acts: seq<Action>, s': State)
    requires Reachable(s) && Exec(Next, s, acts) == Some(s')
    ensures Reachable(s')
  {
    hide Next, Init;
    var n: nat, before :| n <= M && Exec(Next, Init(n), before) == Some(s);
    Split(Next, Init(n), before, acts);
    assert Exec(Next, Init(n), before + acts) == Some(s');
  }

  /** First come, first served: a thread that spins with a ticket enters when, and only when, exactly
      (ticket - owner) mod M unlocks have happened since, whoever else arrives meanwhile. */
  lemma EntersAfterItsTurn(s: State, t: nat, acts: seq<Action>, s': State)
    requires Reachable(s) && t < |s.pc| && s.pc[t].Spinning?
    requires Exec(Next, s, acts) == Some(s') && t < |s'.pc|
    requires Holds(s'.pc[t]) && s'.pc[t].number == s.pc[t].number
    ensures s'.pc[t].Critical? ==> Unlocks(acts) == Distance(s.pc[t].ticket, s.owner)
    ensures s'.pc[t].Spinning? ==> (s'.pc[t].ticket == s'.owner <==> Unlocks(acts) == Distance(s.pc[t].ticket, s.owner))
  {
    StaysReachable(s, acts, s');
    ReachableInv(s);
    ReachableInv(s');
    UnlocksServe(s, acts, s');
    Position(s, t);
    Position(s', t);
    hide Next, Inv, Distance;
  }

  /** A Lock and Unlock that nobody disturbs move both counters on by one and nothing else. */
  lemma UncontendedLockAndUnlock(s: State, t: nat)
    requires Reachable(s) && t < |s.pc| && s.pc[t] == Idle && s.queue == []
    ensures Exec(Next, s, [FetchAdd(t)] + ([Spin(t)] + [Unlock(t)])) == Some(s.(
      next := (s.next + 1) % M, owner := (s.owner + 1) % M, taken := s.taken + 1, served := s.served + 1))
  {
    ReachableInv(s);
    hide Reachable, Inv;
    var s1 := Go(s, t, Spinning(s.next, s.taken)).(next := (s.next + 1) % M, taken := s.taken + 1, queue := [t]);
    var s2 := Go(s1, t, Critical(s.taken));
    var s3 := Go(s2, t, Idle).(owner := (s.owner + 1) % M, served := s.served + 1, queue := []);
    assert s3.pc == s.pc && s.queue + [t] == [t];
    assert Next(s, FetchAdd(t)) == Some(s1) && Next(s1, Spin(t)) == Some(s2) && Next(s2, Unlock(t)) == Some(s3);
    hide Next;
    Nothing(Next, s3);
    First(Next, s2, Unlock(t), []);
    assert [Unlock(t)] + [] == [Unlock(t)];
    First(Next, s1, Spin(t), [Unlock(t)]);
    First(Next, s, FetchAdd(t), [Spin(t)] + [Unlock(t)]);
  }

  // ---- TryLock

  /** Some ticket is outstanding after the first k actions of a run. */
  ghost predicate BusyAfter(s: State, acts: seq<Action>, k: nat)
    requires k <= |acts|
  {
    var r := Exec(Next, s, acts[..k]);
    r.Some? && r.value.queue != []
  }

  ghost predicate BusySometime(s: State, acts: seq<Action>) {
    exists k: nat :: k <= |acts| && BusyAfter(s, acts, k)
  }

  lemma BusyAtOnce(s: State, acts: seq<Action>)
    requires s.queue != []
    ensures BusySometime(s, acts)
  {
    assert acts[..0] == [];
    assert BusyAfter(s, acts, 0);
  }

  lemma BusyLater(s: State, acts: seq<Action>)
    requires acts != [] && Next(s, acts[0]).Some? && BusySometime(Next(s, acts[0]).value, acts[1..])
    ensures BusySometime(s, acts)
  {
    var k: nat :| k <= |acts[1..]| && BusyAfter(Next(s, acts[0]).value, acts[1..], k);
    assert acts[..k+1] == [acts[0]] + acts[1..][..k];
    First(Next, s, acts[0], acts[1..][..k]);
    assert BusyAfter(s, acts, k + 1);
  }

  /** If no ticket is outstanding at any moment of a run, neither word moves during it. */
  lemma {:induction false} WordsMoveOnlyWhenBusy(s: State, acts: seq<Action>, s': State)
    requires Inv(s) && Exec(Next, s, acts) == Some(s') && !BusySometime(s, acts)
    ensures s'.next == s.next && s'.owner == s.owner
    decreases |acts|
  {
    if acts != [] {
      var s1 := Next(s, acts[0]).value;
      InvStep(s, acts[0]);
      if acts[0].Unlock? { Position(s, acts[0].t); }
      if s.queue != [] { BusyAtOnce(s, acts); }
      if s1.queue != [] { BusyAtOnce(s1, acts[1..]); }
      if BusySometime(s1, acts[1..]) { BusyLater(s, acts); }
      assert s1.next == s.next && s1.owner == s.owner;
      hide Next, Inv;
      WordsMoveOnlyWhenBusy(s1, acts[1..], s');
    }
  }

  /** What TryLock decides from its two loads. */
  lemma FailureMeansDifferent(s: State, t: nat, first: Action, s': State)
    requires Inv(s) && t < |s.pc| && s.pc[t] == Idle && (first == LoadNext(t) || first == LoadOwner(t))
    requires t < |s'.pc| && s'.pc[t] == Next(s, first).value.pc[t]
    requires var second := if first.LoadNext? then LoadOwner(t) else LoadNext(t);
      Next(s', second).Some? && Next(s', second).value.pc[t] == Idle
    ensures var s1 := Next(s, first).value;
      && s1 == Go(s, t, s1.pc[t])
      && (s'.next == s.next && s'.owner == s.owner ==> s.next != s.owner)
  {}

  /** TryLock returns false only if the lock was busy at some moment of the call.  Here t makes its
      first load in s, everybody acts as in `acts`, then t makes its second load and returns false;
      at one of the moments in between, some ticket was outstanding. */
  lemma TryLockFailsOnlyWhenBusy(s: State, t: nat, first: Action, acts: seq<Action>, s': State)
    requires Reachable(s) && t < |s.pc| && s.pc[t] == Idle && (first == LoadNext(t) || first == LoadOwner(t))
    requires Exec(Next, Next(s, first).value, acts) == Some(s') && t < |s'.pc| && s'.pc[t] == Next(s, first).value.pc[t]
    requires var second := if first.LoadNext? then LoadOwner(t) else LoadNext(t);
      Next(s', second).Some? && Next(s', second).value.pc[t] == Idle
    ensures BusySometime(Next(s, first).value, acts)
  {
    ReachableInv(s);
    InvStep(s, first);
    FailureMeansDifferent(s, t, first, s');
    var s1 := Next(s, first).value;
    hide Next;
    if !BusySometime(s1, acts) {
      WordsMoveOnlyWhenBusy(s1, acts, s');
      if s1.queue != [] { BusyAtOnce(s1, acts); }
    }
  }

  function FetchAdds(acts: seq<Action>): nat {
    if acts == [] then 0 else (if acts[0].FetchAdd? then 1 else 0) + FetchAdds(acts[1..])
  }

  lemma {:induction false} FetchAddsTake(s: State, acts: seq<Action>, s': State)
    requires Exec(Next, s, acts) == Some(s')
    ensures s'.taken == s.taken + FetchAdds(acts)
    decreases |acts|
  {
    if acts != [] {
      FetchAddsTake(Next(s, acts[0]).value, acts[1..], s');
    }
  }

  lemma SameResidue(a: nat, b: nat)
    ensures a % M == b % M <==> (a - b) % M == 0
  {
    var q, r := a / M, b / M;
    assert a - b == (q - r) * M + (a % M - b % M);
    if (a - b) % M == 0 {
      var k := (a - b) / M;
      assert a - b == k * M;
    }
  }

  /** A thread outside the queue leaves room for its own ticket. */
  lemma OutsiderMakesRoom(s: State, t: nat)
    requires Inv(s) && t < |s.pc| && !Holds(s.pc[t])
    ensures |s.queue| < |s.pc| <= M
  {
    var q := s.queue + [t];
    HolderIsQueued(s, t);
    forall i | 0 <= i < |q| ensures q[i] < |s.pc| {
      if i < |s.queue| { assert PlaceOk(s, i); }
    }
    forall i, j | 0 <= i < j < |q| ensures q[i] != q[j] {
      assert PlaceOk(s, i);
      if j < |s.queue| { assert PlaceOk(s, j); }
    }
    Pigeons(q, |s.pc|);
  }

  /** The two loads of a TryLock of t, in either order, with acts in between. */
  ghost predicate Loads(s: State, t: nat, first: Action, acts: seq<Action>, s': State) {
    && t < |s.pc| && s.pc[t] == Idle && (first == LoadNext(t) || first == LoadOwner(t))
    && Exec(Next, Next(s, first).value, acts) == Some(s')
    && t < |s'.pc| && s'.pc[t] == Next(s, first).value.pc[t]
  }

  function Second(first: Action): Action {
    if first.LoadNext? then LoadOwner(first.t) else LoadNext(first.t)
  }

  /** What TryLock answers, exactly.  With next loaded first: yes if and only if the unlocks up to the
      other load are as many as the tickets outstanding at the first one, modulo 2^64.  With owner
      first: if and only if those tickets and the ones taken since are none, modulo 2^64. */
  lemma TryLockAnswers(s: State, t: nat, first: Action, acts: seq<Action>, s': State)
    requires Reachable(s) && Loads(s, t, first, acts, s')
    ensures Next(s', Second(first)).Some? && t < |Next(s', Second(first)).value.pc|
    ensures var pc := Next(s', Second(first)).value.pc[t];
      var outstanding := if first.LoadNext? then |s.queue| - Unlocks(acts) else |s.queue| + FetchAdds(acts);
      pc == if outstanding % M == 0 then SawFree else Idle
  {
    var s1 := Next(s, first).value;
    ReachableInv(s);
    StaysReachable(s, [first] + acts, s') by { First(Next, s, first, acts); }
    ReachableInv(s');
    UnlocksServe(s1, acts, s');
    FetchAddsTake(s1, acts, s');
    SameResidue(s.taken, s'.served);
    SameResidue(s'.taken, s.served);
  }

  /** So it says no whenever a ticket is outstanding at its first load and nobody unlocks up to the
      second: it does not go on to wait for a lock it has seen taken. */
  lemma TryLockFailsWhenTaken(s: State, t: nat, first: Action, acts: seq<Action>, s': State)
    requires Reachable(s) && Loads(s, t, first, acts, s') && s.queue != [] && Unlocks(acts) == 0
    ensures Next(s', Second(first)).Some? && t < |Next(s', Second(first)).value.pc|
    ensures Next(s', Second(first)).value.pc[t] == Idle
  {
    var s1 := Next(s, first).value;
    TryLockAnswers(s, t, first, acts, s');
    ReachableInv(s);
    StaysReachable(s, [first] + acts, s') by { First(Next, s, first, acts); }
    ReachableInv(s');
    UnlocksServe(s1, acts, s');
    FetchAddsTake(s1, acts, s');
    OutsiderMakesRoom(s, t);
    OutsiderMakesRoom(s', t);
    hide Inv, Next;
  }

  /** And it says yes whenever no ticket is outstanding at its first load and none is taken up to the second. */
  lemma TryLockSeesFree(s: State, t: nat, first: Action, acts: seq<Action>, s': State)
    requires Reachable(s) && Loads(s, t, first, acts, s') && s.queue == [] && FetchAdds(acts) == 0
    ensures Next(s', Second(first)).Some? && t < |Next(s', Second(first)).value.pc|
    ensures Next(s', Second(first)).value.pc[t] == SawFree && Next(Next(s', Second(first)).value, FetchAdd(t)).Some?
  {
    var s1 := Next(s, first).value;
    TryLockAnswers(s, t, first, acts, s');
    ReachableInv(s);
    StaysReachable(s, [first] + acts, s') by { First(Next, s, first, acts); }
    ReachableInv(s');
    UnlocksServe(s1, acts, s');
    FetchAddsTake(s1, acts, s');
  }

  /** The readme asks TryLock not to wait; this one calls Lock.  Having seen the lock free and taken
      its ticket, it finds its turn, at whatever later time it tests, exactly if as many unlocks have
      happened since as tickets were outstanding when it took its own. */
  lemma TryLockEntersAfterUnlocks(s: State, t: nat, acts: seq<Action>, s': State)
    requires Reachable(s) && t < |s.pc| && s.pc[t] == SawFree
    requires var s1 := Next(s, FetchAdd(t)).value;
      Exec(Next, s1, acts) == Some(s') && t < |s'.pc| && s'.pc[t] == s1.pc[t]
    ensures Next(s', Spin(t)).Some?
    ensures Next(s', Spin(t)).value.pc[t].Critical? <==> Unlocks(acts) == |s.queue|
  {
    var s1 := Next(s, FetchAdd(t)).value;
    ReachableInv(s);
    InvStep(s, FetchAdd(t));
    Position(s1, t);
    StaysReachable(s, [FetchAdd(t)] + acts, s') by { First(Next, s, FetchAdd(t), acts); }
    ReachableInv(s');
    Position(s', t);
    UnlocksServe(s1, acts, s');
  }

  /** No schedule makes this TryLock wait: whatever happens between its fetch_add and its first
      test of the loop, the test succeeds. */
  ghost predicate FirstTestSucceeds(s: State, t: nat)
    requires t < |s.pc| && s.pc[t] == SawFree
  {
    var s1 := Next(s, FetchAdd(t)).value;
    forall acts, s' | Exec(Next, s1, acts) == Some(s') && Spin(t) !in acts && t < |s'.pc| && s'.pc[t] == s1.pc[t]
      :: Next(s', Spin(t)).Some? && Next(s', Spin(t)).value.pc[t].Critical?
  }

  /** So TryLock is sure not to wait exactly if no ticket is outstanding at its fetch_add. */
  lemma TryLockWaitsExactlyWhenOvertaken(s: State, t: nat)
    requires Reachable(s) && t < |s.pc| && s.pc[t] == SawFree
    ensures FirstTestSucceeds(s, t) <==> s.queue == []
  {
    var s1 := Next(s, FetchAdd(t)).value;
    if s.queue == [] {
      forall acts, s' | Exec(Next, s1, acts) == Some(s') && Spin(t) !in acts && t < |s'.pc| && s'.pc[t] == s1.pc[t]
        ensures Next(s', Spin(t)).Some? && Next(s', Spin(t)).value.pc[t].Critical?
      {
        TryLockEntersAfterUnlocks(s, t, acts, s');
        NobodyUnlocks(s, t, acts, s');
      }
    } else {
      Nothing(Next, s1);
      TryLockEntersAfterUnlocks(s, t, [], s1);
      assert Spin(t) !in [] && !(Next(s1, Spin(t)).Some? && Next(s1, Spin(t)).value.pc[t].Critical?);
    }
  }

  /** Alone with its ticket, t sees no unlock before its own. */
  lemma NobodyUnlocks(s: State, t: nat, acts: seq<Action>, s': State)
    requires Reachable(s) && t < |s.pc| && s.pc[t] == SawFree && s.queue == []
    requires var s1 := Next(s, FetchAdd(t)).value;
      Exec(Next, s1, acts) == Some(s') && t < |s'.pc| && s'.pc[t] == s1.pc[t]
    ensures Unlocks(acts) == 0
  {
    var s1 := Next(s, FetchAdd(t)).value;
    ReachableInv(s);
    StaysReachable(s, [FetchAdd(t)] + acts, s') by { First(Next, s, FetchAdd(t), acts); }
    ReachableInv(s');
    Position(s', t);
    UnlocksServe(s1, acts, s');
  }

  /** And it can be overtaken: two threads, the second locks between the first one's loads and Lock. */
  lemma TryLockCanWait()
    ensures exists s: State :: Reachable(s) && |s.pc| == 2 && s.pc[0] == SawFree && s.queue == [1]
  {
    var s0 := Init(2);
    assert s0.pc == [Idle, Idle];
    var s1 := s0.(pc := [GotNext(0), Idle]);
    assert Next(s0, LoadNext(0)) == Some(s1) by { assert s0.pc[0 := GotNext(0)] == s1.pc; }
    var s2 := s1.(pc := [SawFree, Idle]);
    assert Next(s1, LoadOwner(0)) == Some(s2) by { assert s1.pc[0 := SawFree] == s2.pc; }
    var s3 := State(1, 0, 1, 0, [1], [SawFree, Spinning(0, 0)]);
    assert Next(s2, FetchAdd(1)) == Some(s3) by {
      assert s2.pc[1 := Spinning(0, 0)] == s3.pc;
      assert s2.queue + [1] == s3.queue;
    }
    hide Next;
    First(Next, s2, FetchAdd(1), []);
    First(Next, s1, LoadOwner(0), [FetchAdd(1)] + []);
    First(Next, s0, LoadNext(0), [LoadOwner(0)] + ([FetchAdd(1)] + []));
    Nothing(Next, s3);
    assert Exec(Next, Init(2), [LoadNext(0)] + ([LoadOwner(0)] + ([FetchAdd(1)] + []))) == Some(s3);
    assert Reachable(s3);
  }

  // ---- The object

  /** Each method is one atomic operation of thread t. */
  class TicketLock {
    var nextFreeTicket: nat
    var ownerTicket: nat
    ghost var taken: nat
    ghost var served: nat
    ghost var queue: seq<nat>
    ghost var pc: seq<Pc>

    ghost function View(): State
      reads this
    {
      State(nextFreeTicket, ownerTicket, taken, served, queue, pc)
    }

    constructor (ghost threads: nat)
      ensures View() == Init(threads)
    {
      nextFreeTicket, ownerTicket, taken, served, queue := 0, 0, 0, 0, [];
      pc := seq(threads, _ => Idle);
    }

    method LockTakeTicket(ghost t: nat) returns (thisThreadTicket: nat)
      requires Next(View(), FetchAdd(t)).Some?
      modifies this
      ensures Some(View()) == Next(old(View()), FetchAdd(t))
      ensures thisThreadTicket == old(nextFreeTicket)
    {
      thisThreadTicket := nextFreeTicket;
      pc := pc[t := Spinning(thisThreadTicket, taken)];
      nextFreeTicket := (nextFreeTicket + 1) % M;
      taken := taken + 1;
      queue := queue + [t];
    }

    method LockTest(ghost t: nat, thisThreadTicket: nat) returns (again: bool)
      requires Next(View(), Spin(t)).Some? && pc[t].ticket == thisThreadTicket
      modifies this`pc
      ensures Some(View()) == Next(old(View()), Spin(t))
      ensures again <==> thisThreadTicket != ownerTicket
    {
      again := thisThreadTicket != ownerTicket;
      if !again {
        pc := pc[t := Critical(pc[t].number)];
      }
    }

    method TryLockLoadNext(ghost t: nat) returns (n: nat)
      requires PcIs(t, Idle)
      modifies this`pc
      ensures Some(View()) == Next(old(View()), LoadNext(t)) && n == nextFreeTicket
    {
      n := nextFreeTicket;
      pc := pc[t := GotNext(n)];
    }

    method TryLockCompare(ghost t: nat, n: nat) returns (isFreeLock: bool)
      requires PcIs(t, GotNext(n))
      modifies this`pc
      ensures Some(View()) == Next(old(View()), LoadOwner(t))
      ensures isFreeLock <==> n == ownerTicket
    {
      isFreeLock := n == ownerTicket;
      pc := pc[t := if isFreeLock then SawFree else Idle];
    }

    ghost predicate PcIs(t: nat, at: Pc)
      reads this
    {
      t < |pc| && pc[t] == at
    }

    method UnlockNext(ghost t: nat)
      requires Next(View(), Unlock(t)).Some?
      modifies this
      ensures Some(View()) == Next(old(View()), Unlock(t))
    {
      ownerTicket := (ownerTicket + 1) % M;
      served := served + 1;
      queue := if queue == [] then [] else queue[1..];
      pc := pc[t := Idle];
    }
  }
}
