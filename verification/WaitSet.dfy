/** The monitor that clients of a mutex and a condition variable reason with, and the proof that
    stdlike::CondVar (tasks/condvar/condvar/condvar.hpp) implements it.

    In the monitor a condition variable is a set of waiting threads.  Waiting releases the mutex and
    joins the set in one step; a notification takes one thread out of it, if there is any, or all;
    a thread taken out, by a notification or for no reason, gets the mutex back some time later. */
module WaitSet {
  import opened Runs
  import opened Counting
  import C = CondVar

  datatype Monitor = Monitor(holder: Option<nat>, waiting: set<nat>, woken: set<nat>)

  datatype Action =
    | Lock(t: nat) | Unlock(t: nat)
    | Wait(t: nat)              // release and enqueue
    | Return(t: nat)            // Wait has the mutex back
    | NotifyOne(u: nat, w: nat) // u takes w out of the set, if anybody is in it
    | NotifyAll(u: nat)
    | Spurious(ws: set<nat>)

  function Next(m: Monitor, a: Action): Option<Monitor> {
    match a
    case Lock(t) => if m.holder == None && t !in m.waiting + m.woken then Some(m.(holder := Some(t))) else None
    case Unlock(t) => if m.holder == Some(t) then Some(m.(holder := None)) else None
    case Wait(t) =>
      if m.holder == Some(t) && t !in m.waiting + m.woken
      then Some(m.(holder := None, waiting := m.waiting + {t})) else None
    case Return(t) =>
      if m.holder == None && t in m.woken then Some(m.(holder := Some(t), woken := m.woken - {t})) else None
    case NotifyOne(_, w) =>
      if m.waiting == {} then Some(m)
      else if w in m.waiting then Some(m.(waiting := m.waiting - {w}, woken := m.woken + {w}))
      else None
    case NotifyAll(_) => Some(m.(waiting := {}, woken := m.woken + m.waiting))
    case Spurious(ws) =>
      if ws <= m.waiting then Some(m.(waiting := m.waiting - ws, woken := m.woken + ws)) else None
  }

  const Init := Monitor(None, {}, {})

  /** What clients do and see. */
  datatype Label =
    | Locks(t: nat) | Unlocks(t: nat) | Waits(t: nat) | Returns(t: nat) | NotifiesOne(u: nat) | NotifiesAll(u: nat)

  function LabelOf(a: Action): seq<Label> {
    match a
    case Lock(t) => [Locks(t)]
    case Unlock(t) => [Unlocks(t)]
    case Wait(t) => [Waits(t)]
    case Return(t) => [Returns(t)]
    case NotifyOne(u, _) => [NotifiesOne(u)]
    case NotifyAll(u) => [NotifiesAll(u)]
    case Spurious(_) => []
  }

  function Labels(acts: seq<Action>): seq<Label> {
    if acts == [] then [] else LabelOf(acts[0]) + Labels(acts[1..])
  }

  // ---- The condition variable, step by step

  /** The same of the condition variable's steps: Wait begins to wait when it unlocks the mutex, a
      notification happens at the increment. */
  function StepLabel(a: C.Action): seq<Label> {
    match a
    case Acquire(t) => [Locks(t)]
    case Release(t) => [Unlocks(t)]
    case Unlock(t) => [Waits(t)]
    case Relock(t) => [Returns(t)]
    case BumpOne(u) => [NotifiesOne(u)]
    case BumpAll(u) => [NotifiesAll(u)]
    case _ => []
  }

  function StepLabels(acts: seq<C.Action>): seq<Label> {
    if acts == [] then [] else StepLabel(acts[0]) + StepLabels(acts[1..])
  }

  /** From the unlock inside Wait to the return of FutexWait. */
  predicate Exposed(pc: C.Pc) {
    pc.ToFutex? || C.Asleep(pc)
  }

  /** The condition variable in state c implements the monitor in state m.  Who waits in m has not
      returned from FutexWait; who has been woken in m may still sleep, if its notifier has
      incremented the counter but not yet called the kernel. */
  ghost predicate Implements(c: C.State, m: Monitor) {
    && m.holder == c.holder && m.waiting !! m.woken
    && (forall t :: t in m.waiting ==> t < |c.pc| && Exposed(c.pc[t]))
    && (forall t :: t in m.woken ==> t < |c.pc| && (Exposed(c.pc[t]) || c.pc[t].ToRelock?))
    && (forall t: nat :: t < |c.pc| && Exposed(c.pc[t]) ==> t in m.waiting + m.woken)
    && (forall t: nat :: t < |c.pc| && c.pc[t].ToRelock? ==> t in m.woken)
  }

  /** Whom a NotifyOne takes out of the set: a thread not asleep yet, whose comparison is going to
      fail now; else the one the kernel will come to first. */
  ghost function Victim(c: C.State, m: Monitor): nat {
    if t: nat :| t in m.waiting && t < |c.pc| && c.pc[t].ToFutex? then t
    else if FirstWaiting(c.queue, m.waiting) < |c.queue| then c.queue[FirstWaiting(c.queue, m.waiting)].t
    else if t: nat :| t in m.waiting then t
    else 0
  }

  function FirstWaiting(q: seq<C.Sleeper>, waiting: set<nat>): (i: nat)
    ensures i <= |q|
    ensures forall j :: 0 <= j < i ==> q[j].t !in waiting
    ensures i < |q| ==> q[i].t in waiting
  {
    if q == [] || q[0].t in waiting then 0 else 1 + FirstWaiting(q[1..], waiting)
  }

  /** What a step of the condition variable is to the monitor. */
  ghost function Mirror(c: C.State, m: Monitor, a: C.Action): Action {
    match a
    case Acquire(t) => Lock(t)
    case Release(t) => Unlock(t)
    case Unlock(t) => Wait(t)
    case Relock(t) => Return(t)
    case BumpOne(u) => NotifyOne(u, Victim(c, m))
    case BumpAll(u) => NotifyAll(u)
    case _ => Spurious(m.waiting - Sleeping(c, a))
  }

  /** Who may still wait after a step that is none of the client's. */
  ghost function Sleeping(c: C.State, a: C.Action): set<nat> {
    var c' := match C.Next(c, a) case None => c case Some(x) => x;
    set t: nat | t < |c'.pc| && Exposed(c'.pc[t])
  }

  lemma LockMirrors(c: C.State, m: Monitor, a: C.Action)
    requires Implements(c, m) && C.Basic(c) && C.Next(c, a).Some?
    requires a.Acquire? || a.Release? || a.Unlock? || a.Relock?
    ensures Next(m, Mirror(c, m, a)).Some? && Implements(C.Next(c, a).value, Next(m, Mirror(c, m, a)).value)
  {
    if a.Unlock? {
      assert C.PcCounters(c, a.t);
    }
  }

  lemma VictimWaits(c: C.State, m: Monitor)
    ensures m.waiting != {} ==> Victim(c, m) in m.waiting
  {}

  lemma NotifyMirrors(c: C.State, m: Monitor, a: C.Action)
    requires Implements(c, m) && C.Next(c, a).Some?
    requires a.BumpOne? || a.BumpAll?
    ensures Next(m, Mirror(c, m, a)).Some? && Implements(C.Next(c, a).value, Next(m, Mirror(c, m, a)).value)
  {
    VictimWaits(c, m);
    hide Victim;
  }

  /** The other steps keep the holder, and take threads out of FutexWait only to the mutex. */
  lemma InnerFrame(c: C.State, a: C.Action)
    requires C.Basic(c) && C.Next(c, a).Some? && StepLabel(a) == []
    ensures var c' := C.Next(c, a).value;
      && c'.holder == c.holder && |c'.pc| == |c.pc|
      && forall t: nat :: t < |c.pc| ==>
           && (Exposed(c'.pc[t]) ==> Exposed(c.pc[t]))
           && (Exposed(c.pc[t]) ==> Exposed(c'.pc[t]) || c'.pc[t].ToRelock?)
           && (c'.pc[t].ToRelock? <==> c.pc[t].ToRelock? || (Exposed(c.pc[t]) && !Exposed(c'.pc[t])))
  {}

  lemma InnerMirrors(c: C.State, m: Monitor, a: C.Action)
    requires Implements(c, m) && C.Basic(c) && C.Next(c, a).Some? && StepLabel(a) == []
    ensures Next(m, Mirror(c, m, a)).Some? && Implements(C.Next(c, a).value, Next(m, Mirror(c, m, a)).value)
  {
    InnerFrame(c, a);
    hide C.Next, C.Basic;
  }

  lemma Mirrors(c: C.State, m: Monitor, a: C.Action)
    requires Implements(c, m) && C.Basic(c) && C.Next(c, a).Some?
    ensures Next(m, Mirror(c, m, a)).Some? && Implements(C.Next(c, a).value, Next(m, Mirror(c, m, a)).value)
    ensures LabelOf(Mirror(c, m, a)) == StepLabel(a)
  {
    hide C.Next, Next, Implements, C.Basic, Victim;
    if a.BumpOne? || a.BumpAll? {
      NotifyMirrors(c, m, a);
    } else if a.Acquire? || a.Release? || a.Unlock? || a.Relock? {
      LockMirrors(c, m, a);
    } else {
      InnerMirrors(c, m, a);
    }
  }

  // ---- Who has been notified does not sleep on

  /** a is a futex check that finds its own sample again, after a positive multiple of 2^32 signals. */
  predicate Wrapped(c: C.State, a: C.Action) {
    a.Check? && C.WrappedCheck(c, a, a.t, c.count)
  }

  /** Taken out of the set, but still asleep. */
  ghost function Doomed(c: C.State, m: Monitor): set<nat> {
    set t: nat | t < |c.pc| && C.Asleep(c.pc[t]) && t in m.woken
  }

  /** NotifyOne calls between increment and wake. */
  ghost function Notifiers(c: C.State): set<nat> {
    set u: nat | u < |c.pc| && c.pc[u].OneBumped?
  }

  ghost predicate WakesAll(c: C.State) {
    exists u: nat :: u < |c.pc| && c.pc[u].AllBumped?
  }

  /** A woken thread that has yet to compare will find the counter changed. */
  ghost predicate Stale(c: C.State, m: Monitor) {
    forall t: nat :: t < |c.pc| && c.pc[t].ToFutex? && t in m.woken ==> c.pc[t].seen < c.count
  }

  /** The doomed threads come first in the kernel's queue. */
  ghost predicate InFront(c: C.State, m: Monitor) {
    && (forall i, j :: 0 <= i < j < |c.queue| && c.queue[j].t in m.woken ==> c.queue[i].t in m.woken)
    && (forall t: nat, i :: t < |c.pc| && c.pc[t].Checked? && t in m.woken && 0 <= i < |c.queue| ==>
          c.queue[i].t in m.woken)
  }

  /** For each of them a wake is under way. */
  ghost predicate Covered(c: C.State, m: Monitor) {
    WakesAll(c) || |Doomed(c, m)| <= |Notifiers(c)|
  }

  ghost predicate Joint(c: C.State, m: Monitor) {
    C.Basic(c) && Implements(c, m) && Stale(c, m) && InFront(c, m) && Covered(c, m)
  }

  /** Only notifications change what the monitor knows of a thread in FutexWait. */
  lemma SameWoken(c: C.State, m: Monitor, a: C.Action, t: nat)
    requires Implements(c, m) && C.Basic(c) && C.Next(c, a).Some? && !a.BumpOne? && !a.BumpAll?
    requires t < |c.pc| && Next(m, Mirror(c, m, a)).Some?
    requires |C.Next(c, a).value.pc| == |c.pc| && Exposed(C.Next(c, a).value.pc[t])
    ensures t in Next(m, Mirror(c, m, a)).value.woken <==> t in m.woken
    ensures t in m.woken ==> Exposed(c.pc[t])
    ensures !Exposed(c.pc[t]) ==> C.Next(c, a).value.pc[t].ToFutex?
  {
    if a.Unlock? {
      assert C.PcCounters(c, a.t);
    }
  }

  lemma StaleStep(c: C.State, m: Monitor, a: C.Action)
    requires Implements(c, m) && C.Basic(c) && Stale(c, m) && C.Next(c, a).Some? && Next(m, Mirror(c, m, a)).Some?
    ensures Stale(C.Next(c, a).value, Next(m, Mirror(c, m, a)).value)
  {
    var c', m' := C.Next(c, a).value, Next(m, Mirror(c, m, a)).value;
    assert |c'.pc| == |c.pc| && c.count <= c'.count;
    assert forall t: nat :: t < |c.pc| && c'.pc[t].ToFutex? && c.pc[t].ToFutex? ==> c'.pc[t] == c.pc[t];
    assert a.BumpOne? || a.BumpAll? ==> c.count < c'.count;
    forall t: nat | t < |c'.pc| && c'.pc[t].ToFutex? && t in m'.woken ensures c'.pc[t].seen < c'.count {
      assert C.PcCounters(c, t);
      if a.BumpOne? || a.BumpAll? {
        assert c'.pc[t] == c.pc[t];
      } else {
        SameWoken(c, m, a, t);
        assert c.pc[t].ToFutex?;
      }
    }
  }

  /** What a step other than a notification does to the queue. */
  lemma QueueMoves(c: C.State, a: C.Action)
    requires C.Basic(c) && C.Next(c, a).Some?
    ensures var c', i := C.Next(c, a).value, if a.Spurious? then a.i else 0;
      && |c'.pc| == |c.pc|
      && (a.Park? ==> c'.queue == c.queue + [C.Sleeper(a.t, c.pc[a.t].seen)] && c.pc[a.t].Checked?)
      && (!a.Park? ==>
            || c'.queue == c.queue || c'.queue == []
            || (i < |c.queue| && c'.queue == c.queue[..i] + c.queue[i+1..]))
      && (a.BumpOne? || a.BumpAll? ==> c'.queue == c.queue)
      && (forall t: nat :: t < |c.pc| && c'.pc[t].Checked? ==>
            c.pc[t].Checked? || (a == C.Check(t) && c.pc[t].ToFutex? && c.word == c.pc[t].expected))
      && (a.Park? ==> forall t: nat :: t < |c.pc| ==> !c'.pc[t].Checked?)
  {}

  lemma InFrontStep(c: C.State, m: Monitor, a: C.Action)
    requires Implements(c, m) && C.Basic(c) && Stale(c, m) && InFront(c, m)
    requires C.Next(c, a).Some? && Next(m, Mirror(c, m, a)).Some? && !Wrapped(c, a) && !a.BumpOne? && !a.BumpAll?
    ensures InFront(C.Next(c, a).value, Next(m, Mirror(c, m, a)).value)
  {
    var c', m' := C.Next(c, a).value, Next(m, Mirror(c, m, a)).value;
    QueueMoves(c, a);
    C.BasicStep(c, a);
    forall t: nat | t < |c.pc| && C.Asleep(c'.pc[t]) ensures t in m'.woken <==> t in m.woken {
      SameWoken(c, m, a, t);
    }
    forall t: nat | t < |c.pc| && c'.pc[t].Checked? && t in m'.woken ensures c.pc[t].Checked? {
      assert C.PcCounters(c, t);
      C.ModDifference(c.count, c.pc[t].seen);
    }
    hide C.Next, Next, Mirror, C.Counters, Implements, Stale;
    var i := if a.Spurious? then a.i else 0;
    InFrontFrame(c, m, c', m', i);
  }

  lemma InFrontFrame(c: C.State, m: Monitor, c': C.State, m': Monitor, i: nat)
    requires C.Kernel(c) && C.Kernel(c') && InFront(c, m) && |c'.pc| == |c.pc|
    requires forall t: nat :: t < |c.pc| && C.Asleep(c'.pc[t]) ==> (t in m'.woken <==> t in m.woken)
    requires forall t: nat :: t < |c.pc| && c'.pc[t].Checked? && t in m'.woken ==> c.pc[t].Checked?
    requires || c'.queue == c.queue || c'.queue == []
             || (i < |c.queue| && c'.queue == c.queue[..i] + c.queue[i+1..])
             || (exists t: nat :: t < |c.pc| && c.pc[t].Checked? && c'.queue == c.queue + [C.Sleeper(t, c.pc[t].seen)]
                   && forall u: nat :: u < |c.pc| ==> !c'.pc[u].Checked?)
    ensures InFront(c', m')
  {}

  /** A notification changes nobody's sleep. */
  lemma NotifyFrame(c: C.State, a: C.Action)
    requires C.Next(c, a).Some? && (a.BumpOne? || a.BumpAll?)
    ensures var c', u := C.Next(c, a).value, a.t;
      && c'.queue == c.queue && |c'.pc| == |c.pc| && u < |c.pc| && c.pc[u].Out?
      && c'.pc == c.pc[u := c'.pc[u]]
      && (if a.BumpOne? then c'.pc[u].OneBumped? else c'.pc[u].AllBumped?)
  {}

  lemma NotifyInFront(c: C.State, m: Monitor, a: C.Action)
    requires Implements(c, m) && C.Basic(c) && InFront(c, m)
    requires C.Next(c, a).Some? && Next(m, Mirror(c, m, a)).Some? && (a.BumpOne? || a.BumpAll?)
    ensures InFront(C.Next(c, a).value, Next(m, Mirror(c, m, a)).value)
  {
    NotifyFrame(c, a);
    var c', m' := C.Next(c, a).value, Next(m, Mirror(c, m, a)).value;
    assert forall i :: 0 <= i < |c.queue| ==> c.queue[i].t in m.waiting + m.woken;
    assert a.BumpAll? ==> m'.woken == m.woken + m.waiting;
    assert a.BumpOne? ==> m'.woken == if m.waiting == {} then m.woken else m.woken + {Victim(c, m)};
    hide C.Next, Next, C.Basic, Implements, Victim, Mirror;
    if a.BumpOne? && m.waiting != {} {
      VictimIsFirst(c, m);
      VictimInFront(c, m, c', m', Victim(c, m));
    }
  }

  lemma VictimInFront(c: C.State, m: Monitor, c': C.State, m': Monitor, v: nat)
    requires InFront(c, m) && |c'.pc| == |c.pc| && c'.queue == c.queue && m'.woken == m.woken + {v}
    requires forall t: nat :: t < |c.pc| && c'.pc[t].Checked? ==> c'.pc[t] == c.pc[t]
    requires forall t: nat :: t < |c.pc| && t == v && c.pc[t].Checked? ==>
      forall i :: 0 <= i < |c.queue| ==> c.queue[i].t in m.woken
    requires forall i, j :: 0 <= i < j < |c.queue| && c.queue[j].t == v ==> c.queue[i].t in m.woken
    ensures InFront(c', m')
  {}

  /** The victim of a NotifyOne, if asleep, comes next after the doomed threads. */
  lemma VictimIsFirst(c: C.State, m: Monitor)
    requires C.Kernel(c) && Implements(c, m) && m.waiting != {}
    ensures var v := Victim(c, m);
      && v in m.waiting
      && (c.pc[v].Checked? ==> forall i :: 0 <= i < |c.queue| ==> c.queue[i].t in m.woken)
      && forall i, j :: 0 <= i < j < |c.queue| && c.queue[j].t == v ==> c.queue[i].t in m.woken
  {
    var k := FirstWaiting(c.queue, m.waiting);
    assert forall i :: 0 <= i < |c.queue| ==> c.queue[i].t in m.waiting + m.woken;
    assert forall i :: 0 <= i < k ==> c.queue[i].t in m.woken;
  }

  lemma DoomedShrink(c: C.State, m: Monitor, a: C.Action)
    requires Implements(c, m) && C.Basic(c) && Stale(c, m) && !Wrapped(c, a) && !a.BumpOne? && !a.BumpAll?
    requires C.Next(c, a).Some? && Next(m, Mirror(c, m, a)).Some?
    ensures Doomed(C.Next(c, a).value, Next(m, Mirror(c, m, a)).value) <= Doomed(c, m)
  {
    var c', m' := C.Next(c, a).value, Next(m, Mirror(c, m, a)).value;
    AsleepBefore(c, a);
    forall t | t in Doomed(c', m') ensures t in Doomed(c, m) {
      SameWoken(c, m, a, t);
      if !C.Asleep(c.pc[t]) {
        assert C.PcCounters(c, t);
        C.ModDifference(c.count, c.pc[t].seen);
      }
    }
  }

  lemma AsleepBefore(c: C.State, a: C.Action)
    requires C.Next(c, a).Some?
    ensures var c' := C.Next(c, a).value;
      && |c'.pc| == |c.pc|
      && forall t: nat :: t < |c.pc| && C.Asleep(c'.pc[t]) ==>
           C.Asleep(c.pc[t]) || (a == C.Check(t) && c.pc[t].ToFutex? && c.word == c.pc[t].expected)
  {}

  /** Who is between increment and wake, apart from the step's own thread. */
  lemma NotifiersMove(c: C.State, a: C.Action)
    requires C.Basic(c) && C.Next(c, a).Some?
    ensures var c' := C.Next(c, a).value;
      && (if a.BumpOne? then a.t !in Notifiers(c) && Notifiers(c') == Notifiers(c) + {a.t}
          else if a.WakeOne? then a.t in Notifiers(c) && Notifiers(c') == Notifiers(c) - {a.t}
          else Notifiers(c') == Notifiers(c))
      && (WakesAll(c) && !a.WakeAll? ==> WakesAll(c'))
      && (a.BumpAll? ==> WakesAll(c'))
  {
    var c' := C.Next(c, a).value;
    NotifierPlaces(c, a);
    hide C.Next, C.Basic;
    if WakesAll(c) && !a.WakeAll? {
      var u: nat :| u < |c.pc| && c.pc[u].AllBumped?;
      assert c'.pc[u].AllBumped?;
    }
    if a.BumpAll? {
      assert c'.pc[a.t].AllBumped?;
    }
  }

  /** Only the step's own thread begins or ends a notification. */
  lemma NotifierPlaces(c: C.State, a: C.Action)
    requires C.Kernel(c) && C.Next(c, a).Some?
    ensures var c' := C.Next(c, a).value;
      && |c'.pc| == |c.pc|
      && (a.BumpOne? ==> a.t < |c.pc| && c.pc[a.t].Out? && c'.pc[a.t].OneBumped?)
      && (a.WakeOne? ==> a.t < |c.pc| && c.pc[a.t].OneBumped? && c'.pc[a.t].Out?)
      && (a.BumpAll? ==> a.t < |c.pc| && c'.pc[a.t].AllBumped?)
      && forall u: nat :: u < |c.pc| ==>
           && (((a.BumpOne? || a.WakeOne?) && u == a.t) || (c'.pc[u].OneBumped? <==> c.pc[u].OneBumped?))
           && (c.pc[u].AllBumped? && !a.WakeAll? ==> c'.pc[u].AllBumped?)
  {}

  /** A wake takes a doomed thread, if there is one: they are first in the queue. */
  lemma WakeOneSaves(c: C.State, m: Monitor, a: C.Action)
    requires Implements(c, m) && C.Basic(c) && InFront(c, m) && a.WakeOne? && Doomed(c, m) != {}
    requires C.Next(c, a).Some? && Next(m, Mirror(c, m, a)).Some?
    ensures exists t :: t in Doomed(c, m) && t !in Doomed(C.Next(c, a).value, Next(m, Mirror(c, m, a)).value)
  {
    var t :| t in Doomed(c, m);
    assert c.pc[t].Parked?;
    var k :| 0 <= k < |c.queue| && c.queue[k] == C.Sleeper(t, c.pc[t].seen);
    assert c.queue[0].t in m.woken;
    C.FrontIsWoken(c, a);
    assert c.queue[0].t in Doomed(c, m);
  }

  lemma WakeAllSaves(c: C.State, m: Monitor, a: C.Action)
    requires a.WakeAll? && C.Next(c, a).Some? && Next(m, Mirror(c, m, a)).Some?
    ensures Doomed(C.Next(c, a).value, Next(m, Mirror(c, m, a)).value) == {}
  {
    C.WakeAllWakes(c, a.t);
  }

  /** A NotifyOne dooms its victim at most. */
  lemma NotifyDooms(c: C.State, m: Monitor, a: C.Action)
    requires a.BumpOne? && C.Next(c, a).Some? && Next(m, Mirror(c, m, a)).Some?
    ensures Doomed(C.Next(c, a).value, Next(m, Mirror(c, m, a)).value) <= Doomed(c, m) + {Victim(c, m)}
  {
    NotifyFrame(c, a);
  }

  lemma CoveredStep(c: C.State, m: Monitor, a: C.Action)
    requires Joint(c, m) && C.Next(c, a).Some? && Next(m, Mirror(c, m, a)).Some? && !Wrapped(c, a)
    ensures Covered(C.Next(c, a).value, Next(m, Mirror(c, m, a)).value)
  {
    var c', m' := C.Next(c, a).value, Next(m, Mirror(c, m, a)).value;
    var d, d', n, n' := Doomed(c, m), Doomed(c', m'), Notifiers(c), Notifiers(c');
    NotifiersMove(c, a);
    if a.BumpOne? {
      NotifyDooms(c, m, a);
      Smaller(d', d + {Victim(c, m)});
    } else if a.WakeAll? {
      WakeAllSaves(c, m, a);
    } else if !a.BumpAll? {
      DoomedShrink(c, m, a);
      Smaller(d', d);
      if a.WakeOne? && d != {} {
        WakeOneSaves(c, m, a);
        var t :| t in d && t !in d';
        Smaller(d', d - {t});
      }
    }
    hide C.Next, Next, Joint, Mirror, Doomed, Notifiers;
  }

  lemma JointStep(c: C.State, m: Monitor, a: C.Action)
    requires Joint(c, m) && C.Next(c, a).Some? && !Wrapped(c, a)
    ensures Next(m, Mirror(c, m, a)).Some? && Joint(C.Next(c, a).value, Next(m, Mirror(c, m, a)).value)
  {
    Mirrors(c, m, a);
    C.BasicStep(c, a);
    hide C.Next, Next, Mirror, C.Basic, Implements, Stale, InFront, Covered;
    StaleStep(c, m, a);
    CoveredStep(c, m, a);
    if a.BumpOne? || a.BumpAll? {
      NotifyInFront(c, m, a);
    } else {
      InFrontStep(c, m, a);
    }
  }

  // ---- Whole runs

  ghost predicate NoWraps(c: C.State, acts: seq<C.Action>)
    decreases |acts|
  {
    acts != [] ==>
      !Wrapped(c, acts[0]) && (C.Next(c, acts[0]).Some? ==> NoWraps(C.Next(c, acts[0]).value, acts[1..]))
  }

  lemma {:induction false} RunMirrors(c: C.State, m: Monitor, acts: seq<C.Action>, c': C.State)
      returns (macts: seq<Action>, m': Monitor)
    requires Implements(c, m) && C.Basic(c) && Exec(C.Next, c, acts) == Some(c')
    ensures Exec(Next, m, macts) == Some(m') && Labels(macts) == StepLabels(acts)
    ensures Implements(c', m')
    ensures Joint(c, m) && NoWraps(c, acts) ==> Joint(c', m')
    decreases |acts|
  {
    if acts == [] {
      macts, m' := [], m;
    } else {
      var a, b := acts[0], Mirror(c, m, acts[0]);
      Mirrors(c, m, a);
      C.BasicStep(c, a);
      if Joint(c, m) && !Wrapped(c, a) {
        JointStep(c, m, a);
      }
      hide C.Next, Next, Implements, C.Basic, Mirror, Joint, Wrapped;
      macts, m' := RunMirrors(C.Next(c, a).value, Next(m, b).value, acts[1..], c');
      First(Next, m, b, macts);
      macts := [b] + macts;
    }
  }

  lemma InitJoint(threads: nat)
    ensures Joint(C.Init(threads), Init)
  {
    assert Doomed(C.Init(threads), Init) == {};
  }

  /** The condition variable is a monitor.  Every run of it, whatever wraps, is to its clients a run
      of the monitor: the same locks, unlocks, waits, returns and notifications in the same order.
      And unless a futex check met a counter wrapped by 2^32 signals, a thread that has been
      notified there is awake, or a notifier is on its way to the kernel to wake it. */
  lemma CondVarIsAMonitor(threads: nat, acts: seq<C.Action>, c: C.State) returns (macts: seq<Action>, m: Monitor)
    requires Exec(C.Next, C.Init(threads), acts) == Some(c)
    ensures Exec(Next, Init, macts) == Some(m) && Labels(macts) == StepLabels(acts) && Implements(c, m)
    ensures NoWraps(C.Init(threads), acts) ==> Joint(c, m)
    ensures NoWraps(C.Init(threads), acts) ==> forall t | t in m.woken :: Rising(c, t)
  {
    InitJoint(threads);
    macts, m := RunMirrors(C.Init(threads), Init, acts, c);
    forall t | t in m.woken && NoWraps(C.Init(threads), acts) ensures Rising(c, t) {
      WokenIsAwake(c, m, t);
    }
  }

  /** t is on its way out of Wait, or somebody is on the way to the kernel to wake it. */
  ghost predicate Rising(c: C.State, t: nat) {
    t < |c.pc| && (c.pc[t].ToFutex? || c.pc[t].ToRelock? || WakesAll(c) || Notifiers(c) != {})
  }

  lemma WokenIsAwake(c: C.State, m: Monitor, t: nat)
    requires Joint(c, m) && t in m.woken
    ensures Rising(c, t)
  {
    if C.Asleep(c.pc[t]) {
      assert t in Doomed(c, m);
    }
  }
}
