/** When the spin bench can come to a stop: exactly when the other workers can
    send an inbox more than it has room for. Its owner then reaches the first
    barrier, before which it drains no more, and a worker that waits for room
    never gets there. */
module SpinWaiting {
  import opened RingIndex
  import opened SpinBench
  import B = PublicBench
  import T = TicketInbox

  /** No thread has drawn to keep an object. */
  predicate AllSent(es: seq<Step>) {
    forall e :: e in es ==> e.roll != 0
  }

  ghost predicate Reaches(s: State, s': State) {
    exists es :: CanRun(s, es) && AllSent(es) && Run(s, es) == s'
  }

  lemma ReachesItself(s: State)
    ensures Reaches(s, s)
  {
    assert CanRun(s, []) && AllSent([]) && Run(s, []) == s;
  }

  lemma ReachesNext(s: State, mid: State, e: Step)
    requires Reaches(s, mid) && Enabled(mid, e) && e.roll != 0
    ensures Reaches(s, Apply(mid, e))
  {
    hide Enabled, Apply;
    var es :| CanRun(s, es) && AllSent(es) && Run(s, es) == mid;
    assert (es + [e])[..|es|] == es;
    assert CanRun(s, es + [e]) && AllSent(es + [e]) && Run(s, es + [e]) == Apply(mid, e);
  }

  /** No push is inside the inbox; its owner is at position `at`, outside a drain
      or about to test that position. */
  ghost predicate Quiet(x: T.State, at: nat, sent: nat, cap: nat) {
    T.Inv(x) && T.Cap(x) == cap && x.producers == map[] && (x.consumer.Outside? || x.consumer.Testing?) && T.At(x) == at && |x.sent| == sent
  }

  /** Nothing is left in it, and its owner is not draining. */
  ghost predicate Empty(x: T.State, cap: nat) {
    Quiet(x, x.head, x.head, cap) && x.consumer.Outside?
  }

  // Drains.

  lemma NothingReady(x: T.State, cap: nat)
    requires Quiet(x, |x.sent|, |x.sent|, cap) && cap >= 2
    ensures T.WellSized(x) && (x.consumer.Outside? ==> T.Apply(x, T.Consume) == x.(consumer := T.Testing(x.head)))
    ensures var x1 := x.(consumer := T.Testing(|x.sent|)); var x2 := x.(consumer := T.Leaving(|x.sent|));
      T.WellSized(x1) && T.WellSized(x2) && T.Apply(x1, T.Consume) == x2 && T.Apply(x2, T.Consume) == x.(consumer := T.Outside, head := |x.sent|)
  {
    assert T.CellOk(x, |x.sent|);
  }

  /** A worker at the top of its loop, with an empty inbox, comes to hold a new
      object. */
  lemma ToHolding(s0: State, s: State, t: nat, cap: nat) returns (s': State)
    requires Reaches(s0, s) && Shaped(s) && t < |s.pcs| && s.pcs[t] == Polling && Empty(s.boxes[t], cap) && cap >= 2
    ensures Reaches(s0, s')
    ensures s' == s.(place := s.place + [With(t)], frees := s.frees + [0], pcs := s.pcs[t := Holding(|s.place|)])
  {
    hide T.Inv, T.Apply, Reaches;
    var x, e := s.boxes[t], Step(t, 1);
    NothingReady(x, cap);
    var a := s.(pcs := s.pcs[t := Allocating]);
    if s.done[t] % 32 == 0 {
      var d := s.(boxes := s.boxes[t := x.(consumer := T.Testing(x.head))], pcs := s.pcs[t := Draining(InLoop)]);
      assert Apply(s, e) == d;
      ReachesNext(s0, s, e);
      var a' := LeavesDrain(s0, d, t, x);
      assert s.boxes[t := x] == s.boxes && d.boxes[t := x] == s.boxes;
      assert a' == a;
    } else {
      assert Apply(s, e) == a;
      ReachesNext(s0, s, e);
    }
    s' := Apply(a, e);
    ReachesNext(s0, a, e);
  }

  /** A drain that finds nothing more ends. */
  lemma LeavesDrain(s0: State, s: State, t: nat, x: T.State) returns (s': State)
    requires Reaches(s0, s) && Shaped(s) && t < |s.pcs| && s.pcs[t] == Draining(InLoop) && s.boxes[t] == x.(consumer := T.Testing(|x.sent|))
    requires var x2 := x.(consumer := T.Leaving(|x.sent|));
      T.WellSized(x2) && T.Apply(s.boxes[t], T.Consume) == x2 && T.Apply(x2, T.Consume) == x.(consumer := T.Outside, head := |x.sent|)
    ensures Reaches(s0, s') && s' == s.(boxes := s.boxes[t := x.(consumer := T.Outside, head := |x.sent|)], pcs := s.pcs[t := Allocating])
  {
    hide T.Inv, T.Apply, Reaches;
    var e := Step(t, 1);
    var d := s.(boxes := s.boxes[t := x.(consumer := T.Leaving(|x.sent|))]);
    assert Apply(s, e) == d;
    ReachesNext(s0, s, e);
    s' := Apply(d, e);
    ReachesNext(s0, d, e);
  }

  // A push to an inbox that has room.

  /** The inbox with thread `t` alone inside it, past `phase` steps of a push. */
  ghost predicate Inside(x: T.State, at: nat, sent: nat, cap: nat, t: nat, p: nat, phase: nat) {
    && T.Inv(x) && T.Cap(x) == cap && T.At(x) == at && |x.sent| == sent + 1
    && x.producers == map[t := if phase == 0 then T.Waiting(sent, p) else if phase == 1 then T.Writing(sent, p) else T.Publishing(sent, p)]
  }

  lemma TakesTicket(x: T.State, at: nat, sent: nat, cap: nat, t: nat, p: nat)
    requires Quiet(x, at, sent, cap) && cap >= 2
    ensures T.Enabled(x, T.Take(t, p)) && Inside(T.Apply(x, T.Take(t, p)), at, sent, cap, t, p, 0) && T.Apply(x, T.Take(t, p)).consumer == x.consumer
  {
    hide T.Inv;
    TakeEnabled(x, t, p);
    TakeDoes(x, t, p);
  }

  lemma PushesOn(x: T.State, at: nat, sent: nat, cap: nat, t: nat, p: nat, phase: nat)
    requires Inside(x, at, sent, cap, t, p, phase) && cap >= 2 && sent < at + cap && phase < 3 && (x.consumer.Outside? || x.consumer.Testing?)
    ensures t in x.producers && T.Enabled(x, PushStep(x, t)) && T.Apply(x, PushStep(x, t)).consumer == x.consumer
    ensures if phase < 2 then Inside(T.Apply(x, PushStep(x, t)), at, sent, cap, t, p, phase + 1) else Quiet(T.Apply(x, PushStep(x, t)), at, sent + 1, cap)
  {
    hide T.CellOk, T.OneHolder;
    assert T.ProducerOk(x, t);
    PushDoes(x, t);
    hide T.Inv;
    if phase == 2 { assert x.producers - {t} == map[]; }
  }

  /** The draw with which thread `t` chooses `dst`. */
  lemma RollChooses(threads: nat, t: nat, dst: nat) returns (roll: nat)
    requires threads > 1 && t < threads && dst < threads && dst != t
    ensures roll != 0 && B.Destination(threads, t, roll) == dst
  {
    roll := B.EveryOtherIsChosen(threads, t, dst);
    NextLap(threads - 1, roll);
    roll := roll + (threads - 1);
  }

  /** The worker holds an object and sends it, as far as its ticket. */
  lemma ToTicket(s0: State, s: State, t: nat, dst: nat, at: nat, sent: nat, cap: nat) returns (s': State)
    requires Reaches(s0, s) && Shaped(s) && t < |s.pcs| && dst < |s.pcs| && dst != t && cap >= 2
    requires s.pcs[t].Holding? && s.pcs[t].item < |s.place| && Quiet(s.boxes[dst], at, sent, cap)
    ensures Reaches(s0, s') && Shaped(s') && |s'.place| == |s.place| && s'.iters == s.iters && s'.done == s.done && s'.pcs == s.pcs[t := Sending(s.pcs[t].item, dst)]
    ensures |s'.boxes| == |s.boxes| && Inside(s'.boxes[dst], at, sent, cap, t, s.pcs[t].item, 0) && s'.boxes[dst].consumer == s.boxes[dst].consumer
    ensures forall b :: 0 <= b < |s.boxes| && b != dst ==> s'.boxes[b] == s.boxes[b]
  {
    hide T.Inv, T.Apply, T.Enabled, Reaches, B.Destination;
    var roll := RollChooses(|s.pcs|, t, dst);
    TakesTicket(s.boxes[dst], at, sent, cap, t, s.pcs[t].item);
    var e := Step(t, roll);
    s' := Apply(s, e);
    SizedByInv(s'.boxes[dst]);
    ReachesNext(s0, s, e);
  }

  /** One more step of the push. */
  lemma PushAt(s0: State, s: State, t: nat, dst: nat, at: nat, sent: nat, cap: nat, phase: nat) returns (s': State)
    requires Reaches(s0, s) && Shaped(s) && t < |s.pcs| && dst < |s.pcs| && dst != t && cap >= 2 && sent < at + cap && phase < 3
    requires s.pcs[t].Sending? && s.pcs[t].dst == dst && Inside(s.boxes[dst], at, sent, cap, t, s.pcs[t].item, phase)
    requires s.boxes[dst].consumer.Outside? || s.boxes[dst].consumer.Testing?
    ensures Reaches(s0, s') && Shaped(s') && |s'.place| == |s.place| && s'.iters == s.iters && |s'.boxes| == |s.boxes|
    ensures s'.boxes[dst].consumer == s.boxes[dst].consumer && forall b :: 0 <= b < |s.boxes| && b != dst ==> s'.boxes[b] == s.boxes[b]
    ensures if phase < 2 then s'.pcs == s.pcs && s'.done == s.done && Inside(s'.boxes[dst], at, sent, cap, t, s.pcs[t].item, phase + 1)
            else s'.pcs == s.pcs[t := if s.done[t] + 1 < s.iters then Polling else AtFirst] && s'.done == s.done[t := s.done[t] + 1]
                 && Quiet(s'.boxes[dst], at, sent + 1, cap)
  {
    hide T.Inv, T.Apply, T.Enabled, Reaches, PushStep;
    PushesOn(s.boxes[dst], at, sent, cap, t, s.pcs[t].item, phase);
    s' := Apply(s, Step(t, 1));
    SizedByInv(s'.boxes[dst]);
    ReachesNext(s0, s, Step(t, 1));
  }

  /** A worker that holds an object sends it to `dst`. */
  lemma SendHeld(s0: State, s: State, t: nat, dst: nat, at: nat, sent: nat, cap: nat) returns (s': State)
    requires Reaches(s0, s) && Shaped(s) && t < |s.pcs| && dst < |s.pcs| && dst != t && cap >= 2 && sent < at + cap
    requires s.pcs[t].Holding? && s.pcs[t].item < |s.place| && Quiet(s.boxes[dst], at, sent, cap)
    ensures Reaches(s0, s') && Shaped(s') && |s'.place| == |s.place| && s'.iters == s.iters && |s'.boxes| == |s.boxes|
    ensures s'.boxes[dst].consumer == s.boxes[dst].consumer && forall b :: 0 <= b < |s.boxes| && b != dst ==> s'.boxes[b] == s.boxes[b]
    ensures s'.pcs == s.pcs[t := if s.done[t] + 1 < s.iters then Polling else AtFirst] && s'.done == s.done[t := s.done[t] + 1]
    ensures Quiet(s'.boxes[dst], at, sent + 1, cap)
  {
    hide T.Inv, Reaches, Inside, T.WellSized;
    s' := ToTicket(s0, s, t, dst, at, sent, cap);
    s' := PushAt(s0, s', t, dst, at, sent, cap, 0);
    s' := PushAt(s0, s', t, dst, at, sent, cap, 1);
    s' := PushAt(s0, s', t, dst, at, sent, cap, 2);
  }

  /** A worker at the top of its loop sends an object to `dst`. */
  lemma SendOne(s0: State, s: State, t: nat, dst: nat, at: nat, sent: nat, cap: nat) returns (s': State)
    requires Reaches(s0, s) && Shaped(s) && t < |s.pcs| && dst < |s.pcs| && dst != t && cap >= 2 && sent < at + cap
    requires s.pcs[t] == Polling && Empty(s.boxes[t], cap) && Quiet(s.boxes[dst], at, sent, cap)
    ensures Reaches(s0, s') && Shaped(s') && |s'.place| >= |s.place| && s'.iters == s.iters && |s'.boxes| == |s.boxes|
    ensures s'.boxes[dst].consumer == s.boxes[dst].consumer && forall b :: 0 <= b < |s.boxes| && b != dst ==> s'.boxes[b] == s.boxes[b]
    ensures s'.pcs == s.pcs[t := if s.done[t] + 1 < s.iters then Polling else AtFirst] && s'.done == s.done[t := s.done[t] + 1]
    ensures Quiet(s'.boxes[dst], at, sent + 1, cap)
  {
    hide T.Inv, Reaches, Quiet, T.WellSized;
    s' := ToHolding(s0, s, t, cap);
    s' := SendHeld(s0, s', t, dst, at, sent, cap);
  }

  // Worker 0 sends everything to worker 1, which takes it out in one long drain.

  /** The consumer's step at an inbox that has one object for it. */
  lemma ConsumesOn(x: T.State, at: nat, cap: nat)
    requires T.Inv(x) && T.Cap(x) == cap && cap >= 2 && x.producers == map[] && !x.consumer.Outside? && T.At(x) == at && |x.sent| == at + 1
    ensures var x' := T.Apply(x, T.Consume);
      && T.Inv(x') && T.Cap(x') == cap && x'.producers == map[] && x'.sent == x.sent
      && x'.consumer == match x.consumer
                        case Testing(h) => T.Loading(h) case Loading(h) => T.Clearing(h, x.cells[Cell(cap, h)]) case Clearing(h, p) => T.Freeing(h, p)
                        case Freeing(h, _) => T.Releasing(h) case Releasing(h) => T.Testing(h + 1) case Leaving(_) => T.Outside
  {
    ConsumeDoes(x);
    assert T.CellOk(x, at);
    hide T.ProducerOk, T.OneHolder;
  }

  /** Worker `t` is in a drain, with one object to take out. */
  ghost predicate TakingOut(s: State, t: nat, at: nat, cap: nat) {
    && Shaped(s) && t < |s.pcs| && s.pcs[t] == Draining(InLoop) && T.Inv(s.boxes[t]) && T.Cap(s.boxes[t]) == cap && cap >= 2
    && s.boxes[t].producers == map[] && T.At(s.boxes[t]) == at && |s.boxes[t].sent| == at + 1
    && !s.boxes[t].consumer.Outside? && !s.boxes[t].consumer.Leaving?
  }

  lemma TakesOut(s0: State, s: State, t: nat, at: nat, cap: nat) returns (s': State)
    requires Reaches(s0, s) && TakingOut(s, t, at, cap)
    ensures Reaches(s0, s') && Shaped(s') && s'.iters == s.iters && s'.pcs == s.pcs && s'.done == s.done && |s'.place| == |s.place| && |s'.boxes| == |s.boxes|
    ensures forall b :: 0 <= b < |s.boxes| && b != t ==> s'.boxes[b] == s.boxes[b]
    ensures if s.boxes[t].consumer.Releasing? then Quiet(s'.boxes[t], at + 1, at + 1, cap) && s'.boxes[t].consumer.Testing?
            else TakingOut(s', t, at, cap) && Left(s'.boxes[t].consumer) + 1 == Left(s.boxes[t].consumer)
  {
    hide T.Inv, T.Apply, Reaches;
    ConsumesOn(s.boxes[t], at, cap);
    s' := Apply(s, Step(t, 1));
    SizedByInv(s'.boxes[t]);
    ReachesNext(s0, s, Step(t, 1));
  }

  /** The steps until the object has been taken out. */
  function Left(c: T.Consumer): nat {
    match c case Testing(_) => 5 case Loading(_) => 4 case Clearing(_, _) => 3 case Freeing(_, _) => 2 case Releasing(_) => 1 case _ => 0
  }

  lemma {:induction false} TakesAllOut(s0: State, s: State, t: nat, at: nat, cap: nat) returns (s': State)
    requires Reaches(s0, s) && TakingOut(s, t, at, cap)
    ensures Reaches(s0, s') && Shaped(s') && s'.iters == s.iters && s'.pcs == s.pcs && s'.done == s.done && |s'.place| == |s.place| && |s'.boxes| == |s.boxes|
    ensures forall b :: 0 <= b < |s.boxes| && b != t ==> s'.boxes[b] == s.boxes[b]
    ensures Quiet(s'.boxes[t], at + 1, at + 1, cap) && s'.boxes[t].consumer.Testing?
    decreases if t < |s.boxes| then Left(s.boxes[t].consumer) else 0
  {
    hide T.Inv, Reaches, Quiet;
    var releasing := s.boxes[t].consumer.Releasing?;
    s' := TakesOut(s0, s, t, at, cap);
    if !releasing {
      s' := TakesAllOut(s0, s', t, at, cap);
    }
  }

  /** Worker 0 has done `d` iterations, worker 1 is in its first drain, and the
      others have not begun. */
  ghost predicate Passing(s: State, iters: nat, cap: nat, d: nat) {
    && Shaped(s) && s.iters == iters && |s.pcs| > 1 && d <= iters && iters > 0
    && (forall u :: 0 <= u < |s.pcs| ==> s.pcs[u] == (if u == 1 then Draining(InLoop) else if u == 0 && d == iters then AtFirst else Polling)
                                         && s.done[u] == if u == 0 then d else 0)
    && (forall b :: 0 <= b < |s.pcs| && b != 1 ==> Empty(s.boxes[b], cap) && s.boxes[b].head == 0)
    && Quiet(s.boxes[1], d, d, cap) && s.boxes[1].consumer.Testing?
  }

  lemma PassOne(s0: State, s: State, iters: nat, cap: nat, d: nat) returns (s': State)
    requires Reaches(s0, s) && Passing(s, iters, cap, d) && d < iters && cap >= 2
    ensures Reaches(s0, s') && |s'.pcs| == |s.pcs| && Passing(s', iters, cap, d + 1)
  {
    hide T.Inv, Reaches, T.WellSized;
    s' := SendOne(s0, s, 0, 1, d, d, cap);
    s' := TakesAllOut(s0, s', 1, d, cap);
  }

  lemma {:induction false} PassAll(s0: State, s: State, iters: nat, cap: nat, d: nat) returns (s': State)
    requires Reaches(s0, s) && Passing(s, iters, cap, d) && cap >= 2
    ensures Reaches(s0, s') && |s'.pcs| == |s.pcs| && Passing(s', iters, cap, iters)
    decreases iters - d
  {
    hide Reaches;
    if d < iters {
      s' := PassOne(s0, s, iters, cap, d);
      s' := PassAll(s0, s', iters, cap, d + 1);
    } else {
      s' := s;
    }
  }

  /** Worker 1 begins its first drain. */
  lemma PassingBegins(threads: nat, iters: nat, cap: nat) returns (s: State)
    requires cap >= 2 && threads > 1 && iters > 0
    ensures Reaches(Start(threads, iters, cap), s) && Passing(s, iters, cap, 0) && |s.pcs| == threads
  {
    hide T.Inv, Reaches;
    var s0 := Start(threads, iters, cap);
    T.InitInv(cap);
    ReachesItself(s0);
    ConsumeDoes(T.Init(cap));
    SizedByInv(T.Init(cap));
    SizedByInv(T.Apply(T.Init(cap), T.Consume));
    s := Apply(s0, Step(1, 1));
    ReachesNext(s0, s0, Step(1, 1));
  }

  // One worker after another runs its loop, and sends everything to worker 0.

  /** The workers before `v` are at the first barrier, `v` has done `d`
      iterations, and the others none. What is left is in the inbox of worker 0. */
  ghost predicate Line(s: State, iters: nat, cap: nat, v: nat, d: nat, sent: nat) {
    && Shaped(s) && s.iters == iters && 0 < v < |s.pcs| && d < iters
    && (forall u :: 0 <= u < |s.pcs| ==> s.pcs[u] == (if u < v then AtFirst else Polling) && (u >= v ==> s.done[u] == if u == v then d else 0))
    && (forall b :: 0 < b < |s.pcs| ==> Empty(s.boxes[b], cap))
    && Quiet(s.boxes[0], 0, sent, cap) && s.boxes[0].consumer.Outside?
  }

  /** Worker 1 ends its drain and sends its first object. */
  lemma LineBegins(s0: State, s: State, iters: nat, cap: nat) returns (s': State)
    requires Reaches(s0, s) && Passing(s, iters, cap, iters) && cap >= 2
    ensures Reaches(s0, s') && |s'.pcs| == |s.pcs|
    ensures if 1 < iters then Line(s', iters, cap, 1, 1, 1) else 2 < |s.pcs| ==> Line(s', iters, cap, 2, 0, 1)
  {
    hide T.Inv, Reaches, T.Apply;
    var x := s.boxes[1];
    NothingReady(x, cap);
    s' := LeavesDrain(s0, s, 1, x);
    LeftEmpty(x, cap);
    var mid := s';
    s' := Apply(mid, Step(1, 1));
    ReachesNext(s0, mid, Step(1, 1));
    s' := SendHeld(s0, s', 1, 0, 0, 0, cap);
  }

  lemma LeftEmpty(x: T.State, cap: nat)
    requires Quiet(x, |x.sent|, |x.sent|, cap) && cap >= 2
    ensures Empty(x.(consumer := T.Outside, head := |x.sent|), cap)
  {
    var x' := x.(consumer := T.Outside, head := |x.sent|);
    hide T.CellOk, T.Held;
    assert forall t :: t !in x'.producers;
    forall k | T.At(x') <= k < T.At(x') + T.Cap(x') ensures T.CellOk(x', k) { SameCells(x, x', k); }
  }

  lemma SameCells(x: T.State, x': T.State, k: nat)
    requires T.WellSized(x) && T.CellOk(x, k) && x' == x.(consumer := T.Outside, head := x'.head) && (x.consumer.Outside? || x.consumer.Testing?)
    ensures T.CellOk(x', k)
  {
    if T.Held(x, k) {
      var t :| t in x.producers && x.producers[t].ticket == k;
      assert t in x'.producers && x'.producers[t].ticket == k;
    }
  }

  /** Worker `v` has done one more iteration. */
  lemma LineSends(s0: State, s: State, iters: nat, cap: nat, v: nat, d: nat, sent: nat) returns (s': State)
    requires Reaches(s0, s) && Line(s, iters, cap, v, d, sent) && cap >= 2 && sent < cap
    ensures Reaches(s0, s') && |s'.pcs| == |s.pcs|
    ensures if d + 1 < iters then Line(s', iters, cap, v, d + 1, sent + 1) else v + 1 < |s.pcs| ==> Line(s', iters, cap, v + 1, 0, sent + 1)
  {
    hide Reaches, Quiet, Empty, T.WellSized;
    s' := SendOne(s0, s, v, 0, 0, sent, cap);
  }

  /** The inbox of worker 0 fills up, once the others can send it that much. */
  lemma {:induction false} LineFills(s0: State, s: State, iters: nat, cap: nat, v: nat, d: nat, sent: nat) returns (s': State, w: nat, e: nat)
    requires Reaches(s0, s) && Line(s, iters, cap, v, d, sent) && cap >= 2 && sent <= cap && iters * (|s.pcs| - 1) > cap
    requires sent == (v - 1) * iters + d
    ensures Reaches(s0, s') && |s'.pcs| == |s.pcs| && Line(s', iters, cap, w, e, cap)
    decreases cap - sent
  {
    hide Reaches, Line;
    InLine(s, iters, cap, v, d, sent);
    if sent == cap {
      s', w, e := s, v, d;
    } else {
      s' := LineSends(s0, s, iters, cap, v, d, sent);
      if d + 1 < iters {
        s', w, e := LineFills(s0, s', iters, cap, v, d + 1, sent + 1);
      } else {
        assert (v - 1) * iters + iters == v * iters;
        s', w, e := LineFills(s0, s', iters, cap, v + 1, 0, sent + 1);
      }
    }
  }

  lemma InLine(s: State, iters: nat, cap: nat, v: nat, d: nat, sent: nat)
    requires Line(s, iters, cap, v, d, sent)
    ensures 0 < v < |s.pcs| && d < iters
  {}

  /** Worker `v` takes a ticket for which there is no room. */
  lemma LineWaits(s0: State, s: State, iters: nat, cap: nat, v: nat, d: nat) returns (s': State)
    requires Reaches(s0, s) && Line(s, iters, cap, v, d, cap) && cap >= 2
    ensures Reaches(s0, s') && WaitsFor(s', v, 0) && s'.pcs[0] == AtFirst
  {
    hide T.Inv, Reaches, T.WellSized;
    s' := ToHolding(s0, s, v, cap);
    s' := ToTicket(s0, s', v, 0, 0, cap, cap);
  }

  /** Wherever the others can send an inbox more than it has room for, there is
      a run on which a worker comes to wait for ever, and no worker keeps an
      object. */
  lemma CanWaitForEver(threads: nat, iters: nat, cap: nat) returns (es: seq<Step>, t: nat)
    requires cap >= 2 && threads >= 1 && iters * (threads - 1) > cap
    ensures CanRun(Start(threads, iters, cap), es) && AllSent(es)
    ensures var s := Run(Start(threads, iters, cap), es); WaitsFor(s, t, 0) && s.pcs[0] == AtFirst && Stuck(s, t)
  {
    hide T.Inv, Reaches, Passing, Line, CanRun, Run, WaitsFor, Stuck;
    var s0 := Start(threads, iters, cap);
    var s := PassingBegins(threads, iters, cap);
    s := PassAll(s0, s, iters, cap, 0);
    s := LineBegins(s0, s, iters, cap);
    var v, d;
    if iters > 1 {
      s, v, d := LineFills(s0, s, iters, cap, 1, 1, 1);
    } else {
      s, v, d := LineFills(s0, s, iters, cap, 2, 0, 1);
    }
    s := LineWaits(s0, s, iters, cap, v, d);
    es := RunTo(s0, s);
    t := v;
    StartInv(threads, iters, cap);
    RunInv(s0, es);
    BarrierSticks(s, v, 0);
  }

  /** The draws that a share of `pct` percent remote frees allows. */
  predicate Draws(pct: nat, es: seq<Step>) {
    forall e :: e in es ==> (pct == 0 ==> e.roll == 0) && (pct >= 100 ==> e.roll != 0)
  }

  /** On some run a worker comes to wait for ever. */
  ghost predicate Stops(threads: nat, iters: nat, cap: nat, pct: nat) {
    exists es, t :: CanRun(Start(threads, iters, cap), es) && Draws(pct, es) && Stuck(Run(Start(threads, iters, cap), es), t)
  }

  /** The bench can stop exactly where workers send at all, and the others can
      send an inbox more than it has room for. */
  lemma StopsIff(threads: nat, iters: nat, cap: nat, pct: nat)
    requires cap >= 2 && threads >= 1
    ensures Stops(threads, iters, cap, pct) <==> pct > 0 && iters * (threads - 1) > cap
  {
    hide CanRun, Run, WaitsFor, Enabled, Stuck;
    if pct > 0 && iters * (threads - 1) > cap {
      var es, t := CanWaitForEver(threads, iters, cap);
    } else {
      forall es, t | CanRun(Start(threads, iters, cap), es) && Draws(pct, es) ensures !Stuck(Run(Start(threads, iters, cap), es), t) {
        if Stuck(Run(Start(threads, iters, cap), es), t) {
          StuckAtOnce(Run(Start(threads, iters, cap), es), t);
          if pct == 0 {
            NobodySends(Start(threads, iters, cap), es);
          } else {
            DefaultNeverWaits(threads, iters, cap, es, t, 0);
          }
        }
      }
    }
  }

  lemma StuckAtOnce(s: State, t: nat)
    requires Stuck(s, t)
    ensures t < |s.pcs| && s.pcs[t].Sending? && !Enabled(s, Step(t, 0))
  {
    hide Enabled;
    assert CanRun(s, []) && Run(s, []) == s;
  }

  predicate NoneSending(s: State) {
    forall u :: 0 <= u < |s.pcs| ==> !s.pcs[u].Sending?
  }

  lemma {:induction false} NobodySends(s: State, es: seq<Step>)
    requires NoneSending(s) && CanRun(s, es) && Draws(0, es)
    ensures NoneSending(Run(s, es))
    decreases |es|
  {
    hide T.Apply;
    if es != [] {
      NobodySends(s, es[..|es| - 1]);
      assert es[|es| - 1] in es;
    }
  }

  // The bench's own sizes.

  ghost predicate AllPastFirst(s: State) {
    forall u :: 0 <= u < |s.pcs| ==> PastFirst(s.pcs[u])
  }

  lemma {:induction false} StaysPastFirst(s: State, es: seq<Step>)
    requires AllPastFirst(s) && CanRun(s, es)
    ensures AllPastFirst(Run(s, es))
    decreases |es|
  {
    hide T.Apply;
    if es != [] {
      StaysPastFirst(s, es[..|es| - 1]);
    }
  }

  /** The bench can stop exactly when it is given a capacity option and a share
      of remote frees, and the capacity is less than what the other workers can
      send. */
  lemma BenchStopsIff(option: nat, iters: nat, threads: nat, pct: nat, cap: nat)
    requires threads >= 1 && T.RoundedUp(T.Requested(option, iters, threads), cap)
    ensures Stops(threads, iters, cap, pct) <==> pct > 0 && option != 0 && iters * (threads - 1) > cap
  {
    assert iters * threads == iters * (threads - 1) + iters;
    if iters == 0 {
      forall es, t | CanRun(Start(threads, 0, cap), es) ensures !Stuck(Run(Start(threads, 0, cap), es), t) {
        StaysPastFirst(Start(threads, 0, cap), es);
      }
    } else {
      StopsIff(threads, iters, cap, pct);
    }
  }

  /** With the smallest capacity two workers can stop from 1025 iterations on. */
  lemma SmallestThatStops(option: nat, iters: nat, pct: nat, cap: nat)
    requires 0 < option <= 1024 && pct > 0 && T.RoundedUp(T.Requested(option, iters, 2), cap)
    ensures Stops(2, iters, cap, pct) <==> iters >= 1025
  {
    T.BenchCapacity(option, iters, 2, cap);
    BenchStopsIff(option, iters, 2, pct, cap);
    hide Stops;
  }

  // Two workers can also come to wait for each other.

  /** Threads 0 and 1 hold objects while thread 2 fills their inboxes. */
  ghost predicate Filling(s: State, m: nat, n: nat, cap: nat) {
    && Shaped(s) && |s.pcs| == 3 && s.pcs[0].Holding? && s.pcs[1].Holding? && s.pcs[0].item < |s.place| && s.pcs[1].item < |s.place|
    && s.pcs[2] == Polling && s.iters == 2 * cap + 2 && s.done[2] == m + n
    && Quiet(s.boxes[0], 0, m, cap) && Quiet(s.boxes[1], 0, n, cap) && Empty(s.boxes[2], cap)
  }

  lemma FillOne(s0: State, s: State, dst: nat, m: nat, n: nat, cap: nat) returns (s': State)
    requires Reaches(s0, s) && Filling(s, m, n, cap) && cap >= 2 && dst < 2 && (if dst == 0 then m else n) < cap && m <= cap && n <= cap
    ensures Reaches(s0, s') && Filling(s', if dst == 0 then m + 1 else m, if dst == 0 then n else n + 1, cap)
  {
    hide T.Inv, Reaches, Quiet, Empty, T.WellSized;
    s' := SendOne(s0, s, 2, dst, 0, if dst == 0 then m else n, cap);
  }

  lemma {:induction false} FillBoth(s0: State, s: State, m: nat, n: nat, cap: nat) returns (s': State)
    requires Reaches(s0, s) && Filling(s, m, n, cap) && cap >= 2 && m <= cap && n <= cap
    ensures Reaches(s0, s') && Filling(s', cap, cap, cap)
    decreases 2 * cap - m - n
  {
    hide Reaches, Filling;
    if m < cap {
      s' := FillOne(s0, s, 0, m, n, cap);
      s' := FillBoth(s0, s', m + 1, n, cap);
    } else if n < cap {
      s' := FillOne(s0, s, 1, m, n, cap);
      s' := FillBoth(s0, s', m, n + 1, cap);
    } else {
      s' := s;
    }
  }

  lemma BeginsFilling(cap: nat) returns (s: State)
    requires cap >= 2
    ensures Reaches(Start(3, 2 * cap + 2, cap), s) && Filling(s, 0, 0, cap)
  {
    hide T.Inv, Reaches;
    var s0 := Start(3, 2 * cap + 2, cap);
    T.InitInv(cap);
    SizedByInv(T.Init(cap));
    ReachesItself(s0);
    s := ToHolding(s0, s0, 0, cap);
    s := ToHolding(s0, s, 1, cap);
  }

  /** Whatever the capacity, three workers can come to a state in which two of
      them wait for room in each other's inboxes; from there neither ever takes
      another step, on any run, so the barriers are never passed. */
  lemma CanWaitForEachOther(cap: nat) returns (es: seq<Step>)
    requires cap >= 2
    ensures CanRun(Start(3, 2 * cap + 2, cap), es) && AllSent(es)
    ensures var s := Run(Start(3, 2 * cap + 2, cap), es);
      && WaitsFor(s, 0, 1) && WaitsFor(s, 1, 0)
      && forall more :: CanRun(s, more) ==> WaitsFor(Run(s, more), 0, 1) && WaitsFor(Run(s, more), 1, 0)
  {
    hide T.Inv, Reaches, Quiet, CanRun, Run, WaitsFor;
    var s0 := Start(3, 2 * cap + 2, cap);
    var s := BeginsFilling(cap);
    s := FillBoth(s0, s, 0, 0, cap);
    s := ToTicket(s0, s, 0, 1, 0, cap, cap);
    s := ToTicket(s0, s, 1, 0, 0, cap, cap);
    es := RunTo(s0, s);
    BothWait(s, cap);
    StartInv(3, 2 * cap + 2, cap);
    RunInv(s0, es);
    forall more | CanRun(s, more) ensures WaitsFor(Run(s, more), 0, 1) && WaitsFor(Run(s, more), 1, 0) {
      MutualWaitIsForever(s, 0, 1, more);
    }
  }

  lemma RunTo(s: State, s': State) returns (es: seq<Step>)
    requires Reaches(s, s')
    ensures CanRun(s, es) && AllSent(es) && Run(s, es) == s'
  {
    es :| CanRun(s, es) && AllSent(es) && Run(s, es) == s';
  }

  lemma BothWait(s: State, cap: nat)
    requires Shaped(s) && |s.pcs| == 3 && s.pcs[0].Sending? && s.pcs[0].dst == 1 && s.pcs[1].Sending? && s.pcs[1].dst == 0
    requires Inside(s.boxes[1], 0, cap, cap, 0, s.pcs[0].item, 0) && Inside(s.boxes[0], 0, cap, cap, 1, s.pcs[1].item, 0)
    ensures WaitsFor(s, 0, 1) && WaitsFor(s, 1, 0)
  {
    hide T.Inv;
  }
}
