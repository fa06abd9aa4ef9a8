/** Calls on a shared object, by any number of threads, that overlap as they please.

    The trace of a run records when each call begins, when it takes effect and when it returns; a
    call is named by the position of its beginning in the trace.  Clients see beginnings and
    returns only.  A run is linearizable if the effects, in the order in which they occur, are a
    history of the sequential object, and every returned call took effect once, with the result it
    returned, between its beginning and its return. */
module Calls {
  import opened Runs

  datatype Event<Op, Res> =
    | Begin(t: nat, op: Op)
    | Effect(call: nat, op: Op, res: Res)
    | Return(call: nat, res: Res)

  /** Where a thread stands: outside, in a call without effect as yet, or about to return from one. */
  datatype Place<Op, Res> =
    | Outside
    | Before(call: nat, op: Op)
    | After(call: nat, op: Op, res: Res)

  datatype Book<Op, Res> = Book(trace: seq<Event<Op, Res>>, places: seq<Place<Op, Res>>)

  function Open<Op, Res>(threads: nat): Book<Op, Res> {
    Book([], seq(threads, _ => Outside))
  }

  predicate IsOutside<Op, Res>(b: Book<Op, Res>, t: nat) {
    t < |b.places| && b.places[t].Outside?
  }

  predicate IsBefore<Op, Res>(b: Book<Op, Res>, t: nat) {
    t < |b.places| && b.places[t].Before?
  }

  predicate IsAfter<Op, Res>(b: Book<Op, Res>, t: nat) {
    t < |b.places| && b.places[t].After?
  }

  function DoBegin<Op, Res>(b: Book<Op, Res>, t: nat, op: Op): Book<Op, Res>
    requires IsOutside(b, t)
  {
    Book(b.trace + [Begin(t, op)], b.places[t := Before(|b.trace|, op)])
  }

  function DoEffect<Op, Res>(b: Book<Op, Res>, t: nat, res: Res): Book<Op, Res>
    requires IsBefore(b, t)
  {
    var Before(call, op) := b.places[t];
    Book(b.trace + [Effect(call, op, res)], b.places[t := After(call, op, res)])
  }

  function DoReturn<Op, Res>(b: Book<Op, Res>, t: nat): Book<Op, Res>
    requires IsAfter(b, t)
  {
    Book(b.trace + [Return(b.places[t].call, b.places[t].res)], b.places[t := Outside])
  }

  // ---- What every book keeps

  /** Position p holds the effect of the given call. */
  predicate EffectAt<Op, Res>(tr: seq<Event<Op, Res>>, p: int, call: nat) {
    0 <= p < |tr| && tr[p].Effect? && tr[p].call == call
  }

  predicate ReturnAt<Op, Res>(tr: seq<Event<Op, Res>>, r: int, call: nat) {
    0 <= r < |tr| && tr[r].Return? && tr[r].call == call
  }

  ghost predicate Begun<Op, Res>(tr: seq<Event<Op, Res>>, call: nat, op: Op) {
    call < |tr| && tr[call].Begin? && tr[call].op == op
  }

  /** Effects belong to calls begun before, one each at most. */
  ghost predicate EffectsOnce<Op, Res>(tr: seq<Event<Op, Res>>) {
    && (forall p :: 0 <= p < |tr| && tr[p].Effect? ==> tr[p].call < p && Begun(tr, tr[p].call, tr[p].op))
    && (forall c: nat, p, q :: EffectAt(tr, p, c) && EffectAt(tr, q, c) ==> p == q)
  }

  /** Every return is of a call that took effect before, with the same result, and did not return before. */
  ghost predicate ReturnsOnce<Op, Res>(tr: seq<Event<Op, Res>>) {
    && (forall r :: 0 <= r < |tr| && tr[r].Return? ==>
          exists p :: p < r && EffectAt(tr, p, tr[r].call) && tr[p].res == tr[r].res)
    && (forall c: nat, r, q :: ReturnAt(tr, r, c) && ReturnAt(tr, q, c) ==> r == q)
  }

  /** A thread's place agrees with the trace: before its effect its call has none. */
  ghost predicate PlaceOk<Op, Res>(b: Book<Op, Res>, t: nat)
    requires t < |b.places|
  {
    var tr := b.trace;
    match b.places[t]
    case Outside => true
    case Before(call, op) =>
      && call < |tr| && tr[call] == Begin(t, op)
      && (forall p :: !EffectAt(tr, p, call)) && (forall r :: !ReturnAt(tr, r, call))
    case After(call, op, res) =>
      && call < |tr| && tr[call] == Begin(t, op)
      && (exists p :: EffectAt(tr, p, call) && tr[p].res == res) && (forall r :: !ReturnAt(tr, r, call))
  }

  /** Every call took effect at most once, after its beginning; the returned ones did so before
      their return and with the result they returned; those inside have not returned, and those
      not yet effected have no effect in the trace. */
  ghost predicate Kept<Op, Res>(b: Book<Op, Res>) {
    && EffectsOnce(b.trace) && ReturnsOnce(b.trace)
    && forall t: nat :: t < |b.places| ==> PlaceOk(b, t)
  }

  /** t is inside a call that has not taken effect. */
  ghost predicate NoEffectYet<Op, Res>(b: Book<Op, Res>, t: nat) {
    IsBefore(b, t) && forall p :: !EffectAt(b.trace, p, b.places[t].call)
  }

  lemma BeginKeeps<Op, Res>(b: Book<Op, Res>, t: nat, op: Op)
    requires Kept(b) && IsOutside(b, t)
    ensures Kept(DoBegin(b, t, op))
  {
    var tr, b' := b.trace, DoBegin(b, t, op);
    Appended(tr, Begin(t, op));
    forall u: nat | u < |b'.places| ensures PlaceOk(b', u) {
      assert PlaceOk(b, u);
    }
  }

  /** Adding an event moves no other one. */
  lemma Appended<Op, Res>(tr: seq<Event<Op, Res>>, e: Event<Op, Res>)
    ensures forall p, c: nat :: EffectAt(tr + [e], p, c) <==>
      EffectAt(tr, p, c) || (p == |tr| && e.Effect? && e.call == c)
    ensures forall r, c: nat :: ReturnAt(tr + [e], r, c) <==>
      ReturnAt(tr, r, c) || (r == |tr| && e.Return? && e.call == c)
  {}

  lemma EffectKeeps<Op, Res>(b: Book<Op, Res>, t: nat, res: Res)
    requires Kept(b) && IsBefore(b, t)
    ensures Kept(DoEffect(b, t, res))
  {
    var b' := DoEffect(b, t, res);
    Appended(b.trace, Effect(b.places[t].call, b.places[t].op, res));
    assert PlaceOk(b, t);
    assert EffectAt(b'.trace, |b.trace|, b.places[t].call);
    forall u: nat | u < |b'.places| ensures PlaceOk(b', u) {
      assert PlaceOk(b, u);
    }
  }

  lemma ReturnKeeps<Op, Res>(b: Book<Op, Res>, t: nat)
    requires Kept(b) && IsAfter(b, t)
    ensures Kept(DoReturn(b, t))
  {
    var b' := DoReturn(b, t);
    Appended(b.trace, Return(b.places[t].call, b.places[t].res));
    assert PlaceOk(b, t);
    forall u: nat | u < |b'.places| ensures PlaceOk(b', u) {
      assert PlaceOk(b, u);
    }
  }

  lemma OpenIsKept<Op, Res>(threads: nat)
    ensures Kept<Op, Res>(Open(threads))
  {}

  // ---- Effects in order

  datatype Done<Op, Res> = Done(op: Op, res: Res)

  /** The operations that took effect, in the order in which they did. */
  function Effects<Op, Res>(tr: seq<Event<Op, Res>>): seq<Done<Op, Res>> {
    if tr == [] then []
    else
      var n := |tr| - 1;
      Effects(tr[..n]) + if tr[n].Effect? then [Done(tr[n].op, tr[n].res)] else []
  }

  lemma EffectsAppend<Op, Res>(tr: seq<Event<Op, Res>>, e: Event<Op, Res>)
    ensures Effects(tr + [e]) == if e.Effect? then Effects(tr) + [Done(e.op, e.res)] else Effects(tr)
  {
    assert (tr + [e])[..|tr|] == tr;
  }

  /** The state of a sequential object after the given operations, or None if one of them was not
      possible there or had another result.  `apply` is the object: what an operation does and returns. */
  ghost function Replay<S, Op, Res>(apply: (S, Op) -> Option<(S, Res)>, s: S, h: seq<Done<Op, Res>>): Option<S> {
    if h == [] then Some(s)
    else
      var n := |h| - 1;
      match Replay(apply, s, h[..n])
      case None => None
      case Some(s1) =>
        match apply(s1, h[n].op)
        case None => None
        case Some(next) => if next.1 == h[n].res then Some(next.0) else None
  }

  /** The effects in the trace are a history of the sequential object that ends in state s. */
  ghost predicate Legal<S, Op, Res>(apply: (S, Op) -> Option<(S, Res)>, init: S, b: Book<Op, Res>, s: S) {
    Replay(apply, init, Effects(b.trace)) == Some(s)
  }

  lemma NoEffectStaysLegal<S, Op, Res>(apply: (S, Op) -> Option<(S, Res)>, init: S, b: Book<Op, Res>, s: S,
      e: Event<Op, Res>)
    requires Legal(apply, init, b, s) && !e.Effect?
    ensures Legal(apply, init, b.(trace := b.trace + [e]), s)
  {
    EffectsAppend(b.trace, e);
  }

  lemma EffectStaysLegal<S, Op, Res>(apply: (S, Op) -> Option<(S, Res)>, init: S, b: Book<Op, Res>, s: S,
      t: nat, res: Res, s': S)
    requires Legal(apply, init, b, s) && IsBefore(b, t) && apply(s, b.places[t].op) == Some((s', res))
    ensures Legal(apply, init, DoEffect(b, t, res), s')
  {
    var Before(call, op) := b.places[t];
    EffectsAppend(b.trace, Effect(call, op, res));
    ReplayAppend(apply, init, Effects(b.trace), Done(op, res));
  }

  lemma ReplayAppend<S, Op, Res>(apply: (S, Op) -> Option<(S, Res)>, s: S, h: seq<Done<Op, Res>>, d: Done<Op, Res>)
    ensures Replay(apply, s, h + [d]) == match Replay(apply, s, h)
      case None => None
      case Some(s1) =>
        match apply(s1, d.op)
        case None => None
        case Some(next) => if next.1 == d.res then Some(next.0) else None
  {
    assert (h + [d])[..|h|] == h;
  }

  /** The order of effects respects real time: a call that returned before another began took
      effect before it. */
  lemma RealTime<Op, Res>(b: Book<Op, Res>, r: nat, call: nat, p: nat, q: nat)
    requires Kept(b) && r < call < |b.trace| && b.trace[r].Return?
    requires EffectAt(b.trace, p, b.trace[r].call) && EffectAt(b.trace, q, call)
    ensures p < r < call < q
  {}
}
