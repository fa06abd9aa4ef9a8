/** tp::UnboundedBlockingQueue (tasks/condvar/thread-pool/tp/blocking_queue.hpp): an unbounded
    queue that can be closed.  A critical section is one atomic step; threads in the condition
    variable are waiting, or woken and about to test its condition again. */
module CloseableQueue {
  import opened Runs
  import opened Counting
  import opened Calls

  datatype Queue<T> = Queue(items: seq<T>, closed: bool, waiting: set<nat>, woken: set<nat>)

  function New<T>(): Queue<T> {
    Queue([], false, {}, {})
  }

  /** Put; w is whom notify_one picks, if anybody waits.  A closed queue stays as it is. */
  function Put<T>(q: Queue<T>, v: T, w: nat): Option<Queue<T>> {
    if q.closed then Some(q)
    else if q.waiting == {} then Some(q.(items := q.items + [v]))
    else if w in q.waiting then Some(q.(items := q.items + [v], waiting := q.waiting - {w}, woken := q.woken + {w}))
    else None
  }

  datatype Outcome<T> = Asleep | Nothing | Got(v: T)

  /** What one pass through Take's loop gives a thread: it sleeps (again), or Take returns
      nullopt, or the front item. */
  function TakeOutcome<T>(q: Queue<T>): Outcome<T> {
    if !q.closed && q.items == [] then Asleep
    else if q.closed && q.items == [] then Nothing
    else Got(q.items[0])
  }

  function Take<T>(q: Queue<T>, t: nat): Option<Queue<T>> {
    if t in q.waiting then None
    else match TakeOutcome(q)
      case Asleep => Some(q.(waiting := q.waiting + {t}, woken := q.woken - {t}))
      case Nothing => Some(q.(woken := q.woken - {t}))
      case Got(_) => Some(q.(items := q.items[1..], woken := q.woken - {t}))
  }

  /** CloseImpl, with notify_all. */
  function Close<T>(q: Queue<T>, clear: bool): Queue<T> {
    Queue(if clear then [] else q.items, true, {}, q.woken + q.waiting)
  }

  function Spurious<T>(q: Queue<T>, w: nat): Option<Queue<T>> {
    if w in q.waiting then Some(q.(waiting := q.waiting - {w}, woken := q.woken + {w})) else None
  }

  /** No taker sleeps through an item or through the closing: sleepers mean that the queue is open
      and that every item is matched by a taker already woken. */
  ghost predicate Unstranded<T>(q: Queue<T>) {
    q.waiting !! q.woken && (q.waiting != {} ==> !q.closed && |q.items| <= |q.woken|)
  }

  lemma PutKeeps<T>(q: Queue<T>, v: T, w: nat)
    requires Unstranded(q) && Put(q, v, w).Some?
    ensures Unstranded(Put(q, v, w).value)
  {
    if w in q.waiting {
      assert |q.woken + {w}| == |q.woken| + 1;
    }
  }

  lemma TakeKeeps<T>(q: Queue<T>, t: nat)
    requires Unstranded(q) && Take(q, t).Some?
    ensures Unstranded(Take(q, t).value)
  {
    if t in q.woken {
      assert q.woken == (q.woken - {t}) + {t};
    } else {
      assert q.woken - {t} == q.woken;
    }
  }

  lemma SpuriousKeeps<T>(q: Queue<T>, w: nat)
    requires Unstranded(q) && Spurious(q, w).Some?
    ensures Unstranded(Spurious(q, w).value)
  {
    if w in q.waiting {
      assert |q.woken + {w}| == |q.woken| + 1;
    }
  }

  // ---- Whole runs of one queue: calls, critical sections, sleep, returns

  type Value = int

  datatype Op = PutOp(v: Value) | TakeOp | CloseOp(clear: bool)

  datatype Result = Accepted | Refused | Item(v: Value) | NullOpt | Void

  datatype State = State(
    q: Queue<Value>,
    book: Book<Op, Result>,
    dropped: seq<Value>)   // values Cancel threw away, in order

  datatype Action =
    | Call(t: nat, op: Op)
    | Section(t: nat, w: nat)  // one critical section of the call t is in; w is whom it notifies
    | Leave(t: nat)            // the call returns
    | Wakeup(w: nat)           // spurious

  function Next(s: State, a: Action): Option<State> {
    match a
    case Call(t, op) => if IsOutside(s.book, t) then Some(s.(book := DoBegin(s.book, t, op))) else None
    case Section(t, w) => if IsBefore(s.book, t) then SectionOf(s, t, w) else None
    case Leave(t) => if IsAfter(s.book, t) then Some(s.(book := DoReturn(s.book, t))) else None
    case Wakeup(w) => (match Spurious(s.q, w) case None => None case Some(q) => Some(s.(q := q)))
  }

  function SectionOf(s: State, t: nat, w: nat): Option<State>
    requires IsBefore(s.book, t)
  {
    match s.book.places[t].op
    case PutOp(v) =>
      (match Put(s.q, v, w)
       case None => None
       case Some(q) => Some(s.(q := q, book := DoEffect(s.book, t, if s.q.closed then Refused else Accepted))))
    case TakeOp =>
      (match Take(s.q, t)
       case None => None
       case Some(q) =>
         match TakeOutcome(s.q)
         case Asleep => Some(s.(q := q))
         case Nothing => Some(s.(q := q, book := DoEffect(s.book, t, NullOpt)))
         case Got(v) => Some(s.(q := q, book := DoEffect(s.book, t, Item(v)))))
    case CloseOp(clear) =>
      Some(s.(q := Close(s.q, clear), book := DoEffect(s.book, t, Void),
              dropped := if clear then s.dropped + s.q.items else s.dropped))
  }

  function Init(threads: nat): State {
    State(New(), Open(threads), [])
  }

  ghost predicate Reachable(s: State) {
    exists n: nat, acts :: Exec(Next, Init(n), acts) == Some(s)
  }

  // ---- The sequential object: a first-in first-out queue with a closed flag, without threads

  datatype Spec = Spec(items: seq<Value>, closed: bool)

  function Apply(p: Spec, op: Op): Option<(Spec, Result)> {
    match op
    case PutOp(v) => Some(if p.closed then (p, Refused) else (Spec(p.items + [v], false), Accepted))
    case TakeOp =>
      if p.items != [] then Some((Spec(p.items[1..], p.closed), Item(p.items[0])))
      else if p.closed then Some((p, NullOpt))
      else None
    case CloseOp(clear) => Some((Spec(if clear then [] else p.items, true), Void))
  }

  /** The values whose Put was accepted, and those that were taken, by effects in their order. */
  function Puts(h: seq<Done<Op, Result>>): seq<Value> {
    if h == [] then []
    else Puts(h[..|h| - 1]) + (var d := h[|h| - 1]; if d.op.PutOp? && d.res == Accepted then [d.op.v] else [])
  }

  function Takes(h: seq<Done<Op, Result>>): seq<Value> {
    if h == [] then []
    else Takes(h[..|h| - 1]) + (var d := h[|h| - 1]; if d.res.Item? then [d.res.v] else [])
  }

  // ---- The invariant

  ghost predicate TakerInside(s: State, t: nat) {
    IsBefore(s.book, t) && s.book.places[t].op == TakeOp
  }

  /** Who sleeps, or has been woken, is inside a Take without effect as yet. */
  ghost predicate Sleepers(s: State) {
    forall t :: t in s.q.waiting + s.q.woken ==> TakerInside(s, t)
  }

  ghost predicate Ledger(s: State) {
    var h := Effects(s.book.trace);
    && Puts(h) == Takes(h) + s.dropped + s.q.items
    && (s.dropped != [] ==> s.q.closed && s.q.items == [])
  }

  ghost predicate Inv(s: State) {
    Unstranded(s.q) && Sleepers(s) && Sound(s) && Ledger(s)
  }

  function Abstract(s: State): Spec {
    Spec(s.q.items, s.q.closed)
  }

  /** A critical section that ends its call's loop does, at that moment, what the sequential object
      does; one that puts its thread to sleep does nothing. */
  lemma SectionEffect(s: State, t: nat, w: nat) returns (res: Option<Result>)
    requires Next(s, Section(t, w)).Some?
    ensures IsBefore(s.book, t)
    ensures var s' := Next(s, Section(t, w)).value;
      if res.None? then
        s'.book == s.book && Abstract(s') == Abstract(s)
      else
        && s'.book == DoEffect(s.book, t, res.value)
        && Apply(Abstract(s), s.book.places[t].op) == Some((Abstract(s'), res.value))
  {
    match s.book.places[t].op
    case PutOp(_) => res := Some(if s.q.closed then Refused else Accepted);
    case TakeOp =>
      res := match TakeOutcome(s.q) case Asleep => None case Nothing => Some(NullOpt) case Got(v) => Some(Item(v));
    case CloseOp(_) => res := Some(Void);
  }

  ghost predicate Sound(s: State) {
    Kept(s.book) && Legal(Apply, Spec([], false), s.book, Abstract(s))
  }

  lemma SoundStep(s: State, a: Action)
    requires Sound(s) && Next(s, a).Some?
    ensures Sound(Next(s, a).value)
  {
    var init := Spec([], false);
    match a
    case Call(t, op) =>
      BeginKeeps(s.book, t, op);
      NoEffectStaysLegal(Apply, init, s.book, Abstract(s), Begin(t, op));
    case Section(t, w) =>
      var res := SectionEffect(s, t, w);
      var s' := Next(s, a).value;
      hide Next, Kept, Apply, Legal;
      if res.Some? {
        EffectKeeps(s.book, t, res.value);
        EffectStaysLegal(Apply, init, s.book, Abstract(s), t, res.value, Abstract(s'));
      }
    case Leave(t) =>
      ReturnKeeps(s.book, t);
      NoEffectStaysLegal(Apply, init, s.book, Abstract(s), Return(s.book.places[t].call, s.book.places[t].res));
    case Wakeup(_) =>
  }

  lemma SleepersStep(s: State, a: Action)
    requires Sleepers(s) && Unstranded(s.q) && Next(s, a).Some?
    ensures Sleepers(Next(s, a).value)
  {
    var s' := Next(s, a).value;
    if a.Wakeup? {
      assert s'.q.waiting + s'.q.woken == s.q.waiting + s.q.woken;
    } else {
      var t := a.t;
      SleepersMove(s, a);
      hide Next;
      forall u | u in s'.q.waiting + s'.q.woken ensures TakerInside(s', u) {
        if u != t {
          assert TakerInside(s, u);
        }
      }
    }
  }

  lemma SleepersMove(s: State, a: Action)
    requires Sleepers(s) && Next(s, a).Some? && !a.Wakeup?
    ensures var s' := Next(s, a).value;
      && a.t < |s.book.places| == |s'.book.places|
      && s'.book.places == s.book.places[a.t := s'.book.places[a.t]]
      && s'.q.waiting + s'.q.woken <= s.q.waiting + s.q.woken + {a.t}
      && (a.t in s'.q.waiting + s'.q.woken ==> TakerInside(s', a.t))
  {
    if a.t in s.q.waiting + s.q.woken {
      assert TakerInside(s, a.t);
    }
  }

  lemma UnstrandedStep(s: State, a: Action)
    requires Unstranded(s.q) && Next(s, a).Some?
    ensures Unstranded(Next(s, a).value.q)
  {
    match a
    case Section(t, w) =>
      match s.book.places[t].op {
        case PutOp(v) => PutKeeps(s.q, v, w);
        case TakeOp => TakeKeeps(s.q, t);
        case CloseOp(_) =>
      }
    case Wakeup(w) => SpuriousKeeps(s.q, w);
    case _ =>
  }

  lemma PutsAppend(h: seq<Done<Op, Result>>, d: Done<Op, Result>)
    ensures Puts(h + [d]) == Puts(h) + if d.op.PutOp? && d.res == Accepted then [d.op.v] else []
    ensures Takes(h + [d]) == Takes(h) + if d.res.Item? then [d.res.v] else []
  {
    assert (h + [d])[..|h|] == h;
  }

  /** What a section adds to the values put, taken and thrown away is what it does to the items. */
  lemma SectionLedger(s: State, t: nat, w: nat)
    requires Ledger(s) && Next(s, Section(t, w)).Some?
    ensures Ledger(Next(s, Section(t, w)).value)
  {
    var s', h := Next(s, Section(t, w)).value, Effects(s.book.trace);
    var res := SectionEffect(s, t, w);
    if res.Some? {
      var Before(call, op) := s.book.places[t];
      EffectsAppend(s.book.trace, Effect(call, op, res.value));
      PutsAppend(h, Done(op, res.value));
      assert s'.dropped == if op.CloseOp? && op.clear then s.dropped + s.q.items else s.dropped;
      hide Next, SectionOf;
      LedgerMoves(Puts(h), Takes(h), s.dropped, Abstract(s), op, res.value);
    } else {
      assert s'.dropped == s.dropped;
    }
  }

  lemma LedgerMoves(puts: seq<Value>, takes: seq<Value>, dropped: seq<Value>, p: Spec, op: Op, res: Result)
    requires puts == takes + dropped + p.items && (dropped != [] ==> p.closed && p.items == [])
    requires Apply(p, op).Some? && Apply(p, op).value.1 == res
    ensures var p' := Apply(p, op).value.0;
      var dropped' := if op.CloseOp? && op.clear then dropped + p.items else dropped;
      && puts + (if op.PutOp? && res == Accepted then [op.v] else [])
         == takes + (if res.Item? then [res.v] else []) + dropped' + p'.items
      && (dropped' != [] ==> p'.closed && p'.items == [])
  {
    if op.TakeOp? && p.items != [] {
      assert p.items == [p.items[0]] + p.items[1..];
    }
  }

  lemma LedgerStep(s: State, a: Action)
    requires Ledger(s) && Next(s, a).Some?
    ensures Ledger(Next(s, a).value)
  {
    match a
    case Call(t, op) => EffectsAppend(s.book.trace, Begin(t, op));
    case Section(t, w) => SectionLedger(s, t, w);
    case Leave(t) => EffectsAppend(s.book.trace, Return(s.book.places[t].call, s.book.places[t].res));
    case Wakeup(_) =>
  }

  lemma InvStep(s: State, a: Action)
    requires Inv(s) && Next(s, a).Some?
    ensures Inv(Next(s, a).value)
  {
    UnstrandedStep(s, a);
    SleepersStep(s, a);
    SoundStep(s, a);
    LedgerStep(s, a);
  }

  lemma ReachableInv(s: State)
    requires Reachable(s)
    ensures Inv(s)
  {
    var n: nat, acts :| Exec(Next, Init(n), acts) == Some(s);
    OpenIsKept<Op, Result>(n);
    assert Inv(Init(n));
    forall x, a | Inv(x) && Next(x, a).Some? ensures Inv(Next(x, a).value) {
      InvStep(x, a);
    }
    hide Inv, Next;
    Invariant(Next, Inv, Init(n), acts);
  }

  // ---- What the queue promises

  /** Linearizability.  In every reachable state the effects of the calls made so far, in the order
      in which they occurred, are a history of the sequential queue, which now holds what the real
      one holds; every call took effect at most once, after its beginning; every call that returned
      took effect before that, with the result it returned; and a call still asleep has no effect. */
  lemma Linearizable(s: State)
    requires Reachable(s)
    ensures Replay(Apply, Spec([], false), Effects(s.book.trace)) == Some(Spec(s.q.items, s.q.closed))
    ensures EffectsOnce(s.book.trace) && ReturnsOnce(s.book.trace)
    ensures forall t | t in s.q.waiting + s.q.woken :: NoEffectYet(s.book, t)
  {
    ReachableInv(s);
    forall t | t in s.q.waiting + s.q.woken ensures NoEffectYet(s.book, t) {
      assert TakerInside(s, t) && PlaceOk(s.book, t);
    }
  }

  /** A Close or Cancel took effect among the first k events. */
  ghost predicate ClosedBefore(tr: seq<Event<Op, Result>>, k: int) {
    exists j :: 0 <= j < k <= |tr| && tr[j].Effect? && tr[j].op.CloseOp?
  }

  ghost predicate ClosingDecides(tr: seq<Event<Op, Result>>, p: int)
    requires 0 <= p < |tr|
  {
    && (tr[p].Effect? && tr[p].op.PutOp? ==> tr[p].res == if ClosedBefore(tr, p) then Refused else Accepted)
    && (tr[p].Effect? && tr[p].res == NullOpt ==> ClosedBefore(tr, p))
  }

  lemma ClosedPrefix(tr: seq<Event<Op, Result>>, k: nat)
    requires tr != [] && k < |tr|
    ensures ClosedBefore(tr, k) <==> ClosedBefore(tr[..|tr| - 1], k)
  {
    var g := tr[..|tr| - 1];
    assert forall j :: 0 <= j < |g| ==> g[j] == tr[j];
  }

  lemma {:induction false} ClosingInTrace(tr: seq<Event<Op, Result>>)
    requires Replay(Apply, Spec([], false), Effects(tr)).Some?
    ensures Replay(Apply, Spec([], false), Effects(tr)).value.closed <==> ClosedBefore(tr, |tr|)
    ensures forall p :: 0 <= p < |tr| ==> ClosingDecides(tr, p)
    decreases |tr|
  {
    if tr != [] {
      var n := |tr| - 1;
      var g := tr[..n];
      assert tr == g + [tr[n]];
      EffectsAppend(g, tr[n]);
      if tr[n].Effect? {
        ReplayAppend(Apply, Spec([], false), Effects(g), Done(tr[n].op, tr[n].res));
      } else {
        assert Effects(tr) == Effects(g);
      }
      ClosingInTrace(g);
      ClosedPrefix(tr, n);
      assert ClosedBefore(tr, |tr|) <==> ClosedBefore(tr, n) || (tr[n].Effect? && tr[n].op.CloseOp?);
      forall p | 0 <= p < |tr| ensures ClosingDecides(tr, p) {
        ClosedPrefix(tr, p);
        if p < n {
          assert ClosingDecides(g, p);
        }
      }
    }
  }

  ghost predicate Decided(tr: seq<Event<Op, Result>>, p: nat, r: nat)
    requires p < r < |tr| && tr[p].Effect? && tr[r].Return?
  {
    && tr[p].res == tr[r].res
    && (tr[p].op.PutOp? ==> tr[r].res == if ClosedBefore(tr, p) then Refused else Accepted)
    && (tr[r].res == NullOpt ==> ClosedBefore(tr, p))
  }

  /** A Put returns false exactly if some Close or Cancel had taken effect before it did; a Take
      returns nullopt only then. */
  lemma PutFailsExactlyAfterClosing(s: State, r: nat)
    requires Reachable(s) && r < |s.book.trace| && s.book.trace[r].Return?
    ensures exists p: nat :: p < r && EffectAt(s.book.trace, p, s.book.trace[r].call) && Decided(s.book.trace, p, r)
  {
    ReachableInv(s);
    var tr := s.book.trace;
    ClosingInTrace(tr);
    var p :| p < r && EffectAt(tr, p, tr[r].call) && tr[p].res == tr[r].res;
    assert ClosingDecides(tr, p);
  }

  /** Accepted values come out in order and each once; those that do not are still in the queue, or
      all that were left were thrown away by Cancel. */
  lemma AcceptedValuesComeOutInOrder(s: State)
    requires Reachable(s)
    ensures var h := Effects(s.book.trace); Puts(h) == Takes(h) + s.dropped + s.q.items
    ensures s.dropped != [] ==> s.q.closed && s.q.items == []
  {
    ReachableInv(s);
  }

  /** Nobody sleeps through an item or a close; and if there are items and sleepers, some woken
      taker gets an item the next time it runs. */
  lemma NobodySleepsThrough(s: State)
    requires Reachable(s) && s.q.waiting != {}
    ensures !s.q.closed && |s.q.items| <= |s.q.woken|
    ensures s.q.items != [] ==>
      exists t, w :: t in s.q.woken && Next(s, Section(t, w)).Some? && IsAfter(Next(s, Section(t, w)).value.book, t)
  {
    ReachableInv(s);
    if s.q.items != [] {
      assert s.q.woken != {};
      var t :| t in s.q.woken;
      assert TakerInside(s, t);
      assert Next(s, Section(t, 0)).Some?;
      assert IsAfter(Next(s, Section(t, 0)).value.book, t);
    }
  }

  /** A Take that is awake sleeps exactly if the queue is open and empty; else it takes effect at once. */
  lemma TakeSleepsExactlyWhenOpenAndEmpty(s: State, t: nat, w: nat)
    requires Reachable(s) && TakerInside(s, t)
    ensures Next(s, Section(t, w)).Some? <==> t !in s.q.waiting
    ensures t !in s.q.waiting ==> var s' := Next(s, Section(t, w)).value;
      if !s.q.closed && s.q.items == [] then s'.book == s.book && t in s'.q.waiting && t !in s'.q.woken
      else IsAfter(s'.book, t) && t !in s'.q.waiting + s'.q.woken
  {
    ReachableInv(s);
  }

  predicate IsPut(s: State, a: Action) {
    a.Section? && IsBefore(s.book, a.t) && s.book.places[a.t].op.PutOp?
  }

  predicate IsClose(s: State, a: Action) {
    a.Section? && IsBefore(s.book, a.t) && s.book.places[a.t].op.CloseOp?
  }

  lemma WaitersLeave(s: State, a: Action)
    requires Next(s, a).Some? && !IsClose(s, a)
    ensures var before, after := s.q.waiting, Next(s, a).value.q.waiting;
      if IsPut(s, a) || a.Wakeup? then before <= after + {a.w} else before <= after
  {}

  /** How many takers a run can have woken by Puts and spuriously; None if some step of it closes. */
  ghost function Wakes(s: State, acts: seq<Action>): Option<nat>
    decreases |acts|
  {
    if acts == [] || Next(s, acts[0]).None? then Some(0)
    else if IsClose(s, acts[0]) || Wakes(Next(s, acts[0]).value, acts[1..]).None? then None
    else
      var n := Wakes(Next(s, acts[0]).value, acts[1..]).value;
      Some(if IsPut(s, acts[0]) || acts[0].Wakeup? then n + 1 else n)
  }

  /** A Put wakes at most one taker; only closing wakes more. */
  lemma {:induction false} PutWakesNoMore(s: State, acts: seq<Action>, s': State)
    requires Exec(Next, s, acts) == Some(s') && Wakes(s, acts).Some?
    ensures |s.q.waiting| <= |s'.q.waiting| + Wakes(s, acts).value
    decreases |acts|
  {
    if acts != [] {
      var a, s1 := acts[0], Next(s, acts[0]).value;
      WaitersLeave(s, a);
      var w := if IsPut(s, a) || a.Wakeup? then {a.w} else {};
      hide Next, IsPut, IsClose;
      PutWakesNoMore(s1, acts[1..], s');
      Smaller(s.q.waiting, s1.q.waiting + w);
    }
  }

  // ---- The object

  /** Each method is one critical section. */
  class UnboundedBlockingQueue<T> {
    var isClosed: bool
    var queue: seq<T>
    ghost var waiting: set<nat>
    ghost var woken: set<nat>

    ghost function View(): Queue<T>
      reads this
    {
      Queue(queue, isClosed, waiting, woken)
    }

    constructor ()
      ensures View() == New()
    {
      isClosed, queue := false, [];
      waiting, woken := {}, {};
    }

    method TryPut(value: T, ghost w: nat) returns (ok: bool)
      requires Put(View(), value, w).Some?
      modifies this
      ensures Some(View()) == Put(old(View()), value, w)
      ensures ok <==> !old(isClosed)
    {
      if !isClosed {
        queue := queue + [value];
        if waiting != {} {
          waiting, woken := waiting - {w}, woken + {w};
        }
        return true;
      }
      return false;
    }

    /** From taking the mutex to leaving it, by returning from Take or by waiting. */
    method TryTake(ghost t: nat) returns (r: Outcome<T>)
      requires Take(View(), t).Some?
      modifies this
      ensures Some(View()) == Take(old(View()), t)
      ensures r == TakeOutcome(old(View()))
    {
      woken := woken - {t};
      if !isClosed && |queue| == 0 {
        waiting := waiting + {t};
        return Asleep;
      }
      if isClosed && |queue| == 0 {
        return Nothing;
      }
      r := Got(queue[0]);
      queue := queue[1..];
    }

    method CloseImpl(clear: bool)
      modifies this
      ensures View() == Close(old(View()), clear)
    {
      isClosed := true;
      if clear {
        queue := [];
      }
      waiting, woken := {}, woken + waiting;
    }
  }
}
