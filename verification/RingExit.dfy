/** The ring of single-producer, single-consumer inboxes of the malloc matrix
    bench: each thread allocates, hands some objects to the next thread, frees
    what the previous thread hands it, and leaves when its predecessor is done
    and two drains in a row found nothing. */
module RingExit {
  import opened Basics
  import opened RingIndex

  type Ptr = nat

  /** Why a thread is draining its inbox. */
  datatype Why = Iteration | Retry(ptr: Ptr) | Tail | Final

  /** What a thread does next. `got` counts the objects of the drain under way. */
  datatype Pc = Draining(why: Why, got: nat) | Freeing(why: Why, got: nat, out: Ptr)
              | Allocating | Holding(ptr: Ptr) | Pushing(ptr: Ptr) | Storing(ptr: Ptr) | Bumping(ptr: Ptr)
              | Finishing | Checking(got: nat) | Exited

  datatype Thread = Thread(pc: Pc, left: nat, enqueued: nat, drained: nat)

  datatype Box = Box(cells: seq<Ptr>, head: nat, tail: nat)

  datatype Place = With(t: nat) | InBox(box: nat, ticket: nat) | Gone

  /** `frees` counts how often each allocation has been freed; `place` records
      where it is. */
  datatype Ring = Ring(cap: nat, threads: seq<Thread>, boxes: seq<Box>, done: seq<bool>, frees: seq<nat>, place: seq<Place>)

  /** Thread `t` takes a step; `coin` is what malloc, the random choice or the
      exit test gives it. */
  datatype Step = Step(t: nat, coin: bool)

  function Next(n: nat, t: nat): nat { if t + 1 == n then 0 else t + 1 }

  function Prev(n: nat, t: nat): nat
    requires n > 0
  {
    if t == 0 then n - 1 else t - 1
  }

  function Start(n: nat, cap: nat, iters: nat): Ring {
    Ring(cap, seq(n, i => Thread(if iters == 0 then Finishing else Draining(Iteration, 0), iters, 0, 0)),
         seq(n, i => Box(seq(cap, j => 0), 0, 0)), seq(n, i => false), [], [])
  }

  predicate Shaped(s: Ring) {
    && s.cap > 0 && |s.boxes| == |s.done| == |s.threads| && |s.place| == |s.frees|
    && forall b :: 0 <= b < |s.boxes| ==> |s.boxes[b].cells| == s.cap
  }

  predicate Enabled(s: Ring, t: nat) {
    Shaped(s) && t < |s.threads| && s.threads[t].pc != Exited
    && (s.threads[t].pc.Freeing? ==> s.threads[t].pc.out < |s.frees|)
    && (s.threads[t].pc.Holding? ==> s.threads[t].pc.ptr < |s.frees|)
    && (s.threads[t].pc.Bumping? ==> s.threads[t].pc.ptr < |s.frees|)
    && (s.threads[t].pc.Draining? && s.boxes[t].head != s.boxes[t].tail ==> s.boxes[t].cells[Cell(s.cap, s.boxes[t].head)] < |s.frees|)
  }

  function Goto(s: Ring, t: nat, pc: Pc): Ring
    requires t < |s.threads|
  {
    s.(threads := s.threads[t := s.threads[t].(pc := pc)])
  }

  /** One iteration of the work loop is over. */
  function EndIteration(th: Thread): Thread {
    if th.left <= 1 then th.(left := 0, pc := Finishing) else th.(left := th.left - 1, pc := Draining(Iteration, 0))
  }

  function Free(s: Ring, p: Ptr): Ring
    requires p < |s.frees| == |s.place|
  {
    s.(frees := s.frees[p := s.frees[p] + 1], place := s.place[p := Gone])
  }

  /** The drain has found the inbox empty. */
  function DrainEnds(s: Ring, t: nat, why: Why, got: nat): Ring
    requires t < |s.threads|
  {
    var th := s.threads[t].(drained := s.threads[t].drained + got);
    s.(threads := s.threads[t := match why
       case Iteration => th.(pc := Allocating)
       case Retry(p) => th.(pc := Pushing(p))
       case Tail => th.(pc := Checking(got))
       case Final => th.(pc := if got == 0 then Exited else Draining(Tail, 0))])
  }

  /** The consumer's side: load the tail; if the inbox is not empty, take the
      item and store the head. */
  function Pop(s: Ring, t: nat): Ring
    requires Enabled(s, t) && s.threads[t].pc.Draining?
  {
    var box, pc := s.boxes[t], s.threads[t].pc;
    if box.head == box.tail then DrainEnds(s, t, pc.why, pc.got)
    else
      var p := box.cells[Cell(s.cap, box.head)];
      Goto(s, t, Freeing(pc.why, pc.got, p)).(boxes := s.boxes[t := box.(head := box.head + 1)], place := s.place[p := With(t)])
  }

  function Apply(s: Ring, e: Step): Ring
    requires Enabled(s, e.t)
  {
    var t, th := e.t, s.threads[e.t];
    var to := Next(|s.threads|, t);
    var box := s.boxes[to];
    match th.pc
    case Draining(_, _) => Pop(s, t)
    case Freeing(why, got, p) => Goto(Free(s, p), t, Draining(why, got + 1))
    case Allocating =>
      if e.coin then Goto(s, t, Holding(|s.frees|)).(frees := s.frees + [0], place := s.place + [With(t)])
      else Goto(s, t, Finishing)
    case Holding(p) =>
      if e.coin then Goto(s, t, Pushing(p)) else Free(s, p).(threads := s.threads[t := EndIteration(th)])
    case Pushing(p) => Goto(s, t, if box.tail + 1 > box.head + s.cap then Draining(Retry(p), 0) else Storing(p))
    case Storing(p) =>
      Goto(s, t, Bumping(p)).(boxes := s.boxes[to := box.(cells := box.cells[Cell(s.cap, box.tail) := p])])
    case Bumping(p) =>
      s.(boxes := s.boxes[to := box.(tail := box.tail + 1)], place := s.place[p := InBox(to, box.tail)],
         threads := s.threads[t := EndIteration(th.(enqueued := th.enqueued + 1))])
    case Finishing => Goto(s, t, Draining(Tail, 0)).(done := s.done[t := true])
    case Checking(got) =>
      Goto(s, t, Draining(if s.done[Prev(|s.threads|, t)] && got == 0 then Final else Tail, 0))
    case Exited => s
  }

  // What every interleaving keeps.

  /** Past the store of `done`: the thread will never push again. */
  predicate Over(pc: Pc) {
    pc.Checking? || pc.Exited? || ((pc.Draining? || pc.Freeing?) && (pc.why == Tail || pc.why == Final))
  }

  predicate Carries(pc: Pc, p: Ptr) {
    (pc.Freeing? && pc.out == p) || ((pc.Draining? || pc.Freeing?) && pc.why == Retry(p))
    || ((pc.Holding? || pc.Pushing? || pc.Storing? || pc.Bumping?) && pc.ptr == p)
  }

  function Uncounted(pc: Pc): nat {
    if pc.Draining? then pc.got else if pc.Freeing? then pc.got + 1 else 0
  }

  predicate BoxOk(s: Ring, b: nat)
    requires Shaped(s) && b < |s.boxes|
  {
    var box := s.boxes[b];
    && box.head <= box.tail <= box.head + s.cap
    && forall k :: box.head <= k < box.tail ==> box.cells[Cell(s.cap, k)] < |s.place| && s.place[box.cells[Cell(s.cap, k)]] == InBox(b, k)
  }

  ghost predicate ThreadOk(s: Ring, t: nat)
    requires Shaped(s) && t < |s.threads|
  {
    var pc, to, from := s.threads[t].pc, Next(|s.threads|, t), Prev(|s.threads|, t);
    && (forall p: Ptr :: Carries(pc, p) ==> p < |s.place| && s.place[p] == With(t))
    && (pc.Freeing? && pc.why.Retry? ==> pc.why.ptr != pc.out)
    && (pc.Storing? || pc.Bumping? ==> s.boxes[to].tail < s.boxes[to].head + s.cap)
    && (pc.Bumping? ==> s.boxes[to].cells[Cell(s.cap, s.boxes[to].tail)] == pc.ptr)
    && s.done[t] == Over(pc)
    && ((pc.Draining? || pc.Freeing?) && pc.why == Final ==> s.done[from])
    && (pc == Exited ==> s.done[from] && s.boxes[t].head == s.boxes[t].tail)
    && s.boxes[t].head == s.threads[t].drained + Uncounted(pc)
    && s.boxes[to].tail == s.threads[t].enqueued
  }

  predicate PtrOk(s: Ring, p: Ptr)
    requires Shaped(s) && p < |s.place|
  {
    match s.place[p]
    case Gone => s.frees[p] == 1
    case With(t) => s.frees[p] == 0 && t < |s.threads| && Carries(s.threads[t].pc, p)
    case InBox(b, k) => s.frees[p] == 0 && b < |s.boxes| && s.boxes[b].head <= k < s.boxes[b].tail && s.boxes[b].cells[Cell(s.cap, k)] == p
  }

  ghost predicate Inv(s: Ring) {
    && Shaped(s)
    && (forall b :: 0 <= b < |s.boxes| ==> BoxOk(s, b))
    && (forall t :: 0 <= t < |s.threads| ==> ThreadOk(s, t))
    && (forall p :: 0 <= p < |s.place| ==> PtrOk(s, p))
  }

  lemma StartInv(n: nat, cap: nat, iters: nat)
    requires cap > 0
    ensures Inv(Start(n, cap, iters))
  {}

  /** Each thread has one successor and one predecessor. */
  lemma RingShape(n: nat, t: nat)
    requires t < n
    ensures Next(n, t) < n && Prev(n, t) < n && Prev(n, Next(n, t)) == t && Next(n, Prev(n, t)) == t
  {}

  lemma RingIsModular(n: nat, t: nat)
    requires t < n
    ensures Next(n, t) == Cell(n, t + 1) && Prev(n, t) == Cell(n, t + n - 1)
  {
    SmallCell(n, 0);
    NextLap(n, 0);
    if t + 1 < n { SmallCell(n, t + 1); }
    if t > 0 {
      SmallCell(n, t - 1);
      NextLap(n, t - 1);
    } else {
      SmallCell(n, n - 1);
    }
    hide Cell;
  }

  /** A step of `t` that moves no object and no index: only its own thread
      record changes, and what it carries stays the same. */
  lemma OwnStep(s: Ring, t: nat, th: Thread)
    requires Inv(s) && t < |s.threads|
    requires forall p: Ptr :: Carries(th.pc, p) <==> Carries(s.threads[t].pc, p)
    requires ThreadOk(s.(threads := s.threads[t := th]), t)
    ensures Inv(s.(threads := s.threads[t := th]))
  {
    var s' := s.(threads := s.threads[t := th]);
    forall b | 0 <= b < |s'.boxes| ensures BoxOk(s', b) { assert BoxOk(s, b); }
    forall u | 0 <= u < |s'.threads| ensures ThreadOk(s', u) { assert ThreadOk(s, u); }
    forall p | 0 <= p < |s'.place| ensures PtrOk(s', p) { assert PtrOk(s, p); }
  }

  lemma DrainEndsKeeps(s: Ring, t: nat)
    requires Inv(s) && Enabled(s, t) && s.threads[t].pc.Draining? && s.boxes[t].head == s.boxes[t].tail
    ensures Inv(Pop(s, t))
  {
    hide Cell;
    assert ThreadOk(s, t);
    RingShape(|s.threads|, t);
    OwnStep(s, t, Pop(s, t).threads[t]);
  }

  lemma PopKeeps(s: Ring, t: nat)
    requires Inv(s) && Enabled(s, t) && s.threads[t].pc.Draining? && s.boxes[t].head != s.boxes[t].tail
    ensures Inv(Pop(s, t))
  {
    var s' := Pop(s, t);
    var head := s.boxes[t].head;
    var p := s.boxes[t].cells[Cell(s.cap, head)];
    hide Cell;
    RingShape(|s.threads|, t);
    assert BoxOk(s, t) && PtrOk(s, p);
    forall b | 0 <= b < |s'.boxes| ensures BoxOk(s', b) {
      assert BoxOk(s, b);
      forall k | s'.boxes[b].head <= k < s'.boxes[b].tail
        ensures s'.place[s'.boxes[b].cells[Cell(s.cap, k)]] == InBox(b, k) {
        assert s.place[s.boxes[b].cells[Cell(s.cap, k)]] == InBox(b, k);
      }
    }
    assert forall q: Ptr :: Carries(s'.threads[t].pc, q) ==> q == p || Carries(s.threads[t].pc, q);
    forall u | 0 <= u < |s'.threads| ensures ThreadOk(s', u) { assert ThreadOk(s, u); RingShape(|s.threads|, u); }
    forall q | 0 <= q < |s'.place| ensures PtrOk(s', q) { assert PtrOk(s, q); }
  }

  /** The thread frees an object it carries. */
  lemma FreeKeeps(s: Ring, t: nat, p: Ptr, th: Thread)
    requires Inv(s) && t < |s.threads| && p < |s.frees| && s.place[p] == With(t)
    requires forall q: Ptr :: Carries(th.pc, q) <==> q != p && Carries(s.threads[t].pc, q)
    requires ThreadOk(Free(s, p).(threads := s.threads[t := th]), t)
    ensures Inv(Free(s, p).(threads := s.threads[t := th]))
  {
    var s' := Free(s, p).(threads := s.threads[t := th]);
    hide Cell;
    assert PtrOk(s, p);
    forall b | 0 <= b < |s'.boxes| ensures BoxOk(s', b) { assert BoxOk(s, b); }
    forall u | 0 <= u < |s'.threads| ensures ThreadOk(s', u) { assert ThreadOk(s, u); }
    forall q | 0 <= q < |s'.place| ensures PtrOk(s', q) { assert PtrOk(s, q); }
  }

  lemma FreeingKeeps(s: Ring, t: nat, coin: bool)
    requires Inv(s) && Enabled(s, t) && s.threads[t].pc.Freeing?
    ensures Inv(Apply(s, Step(t, coin)))
  {
    hide Cell;
    var pc := s.threads[t].pc;
    assert ThreadOk(s, t) && Carries(pc, pc.out);
    FreeKeeps(s, t, pc.out, s.threads[t].(pc := Draining(pc.why, pc.got + 1)));
  }

  lemma HoldingKeeps(s: Ring, t: nat, coin: bool)
    requires Inv(s) && Enabled(s, t) && s.threads[t].pc.Holding?
    ensures Inv(Apply(s, Step(t, coin)))
  {
    hide Cell;
    var pc := s.threads[t].pc;
    assert ThreadOk(s, t) && Carries(pc, pc.ptr);
    if coin {
      OwnStep(s, t, s.threads[t].(pc := Pushing(pc.ptr)));
    } else {
      FreeKeeps(s, t, pc.ptr, EndIteration(s.threads[t]));
    }
  }

  lemma AllocateKeeps(s: Ring, t: nat, coin: bool)
    requires Inv(s) && Enabled(s, t) && s.threads[t].pc.Allocating?
    ensures Inv(Apply(s, Step(t, coin)))
  {
    hide Cell;
    var s' := Apply(s, Step(t, coin));
    assert ThreadOk(s, t);
    if coin {
      forall b | 0 <= b < |s'.boxes| ensures BoxOk(s', b) { assert BoxOk(s, b); }
      forall u | 0 <= u < |s'.threads| ensures ThreadOk(s', u) { assert ThreadOk(s, u); }
      forall q | 0 <= q < |s'.place| ensures PtrOk(s', q) { if q < |s.place| { assert PtrOk(s, q); } }
    } else {
      OwnStep(s, t, s.threads[t].(pc := Finishing));
    }
  }

  lemma PushingKeeps(s: Ring, t: nat, coin: bool)
    requires Inv(s) && Enabled(s, t) && s.threads[t].pc.Pushing?
    ensures Inv(Apply(s, Step(t, coin)))
  {
    hide Cell;
    assert ThreadOk(s, t);
    OwnStep(s, t, Apply(s, Step(t, coin)).threads[t]);
  }

  /** The cell being written is not in use: the ring is not full. */
  lemma StoringKeeps(s: Ring, t: nat, coin: bool)
    requires Inv(s) && Enabled(s, t) && s.threads[t].pc.Storing?
    ensures Inv(Apply(s, Step(t, coin)))
  {
    var s' := Apply(s, Step(t, coin));
    var to := Next(|s.threads|, t);
    RingShape(|s.threads|, t);
    assert ThreadOk(s, t) && BoxOk(s, to);
    LapApart(s.cap, s.boxes[to].head);
    hide Cell;
    forall b | 0 <= b < |s'.boxes| ensures BoxOk(s', b) { assert BoxOk(s, b); }
    assert forall q: Ptr :: Carries(s'.threads[t].pc, q) ==> Carries(s.threads[t].pc, q);
    forall u | 0 <= u < |s'.threads| ensures ThreadOk(s', u) { assert ThreadOk(s, u); RingShape(|s.threads|, u); }
    forall q | 0 <= q < |s'.place| ensures PtrOk(s', q) { assert PtrOk(s, q); }
  }

  lemma BumpingKeeps(s: Ring, t: nat, coin: bool)
    requires Inv(s) && Enabled(s, t) && s.threads[t].pc.Bumping?
    ensures Inv(Apply(s, Step(t, coin)))
  {
    var s' := Apply(s, Step(t, coin));
    var to := Next(|s.threads|, t);
    var p := s.threads[t].pc.ptr;
    RingShape(|s.threads|, t);
    assert ThreadOk(s, t) && BoxOk(s, to) && Carries(s.threads[t].pc, p) && PtrOk(s, p);
    assert ThreadOk(s, to);
    hide Cell;
    forall b | 0 <= b < |s'.boxes| ensures BoxOk(s', b) { assert BoxOk(s, b); }
    assert forall q: Ptr :: Carries(s'.threads[t].pc, q) ==> Carries(s.threads[t].pc, q);
    forall u | 0 <= u < |s'.threads| ensures ThreadOk(s', u) { assert ThreadOk(s, u); RingShape(|s.threads|, u); }
    forall q | 0 <= q < |s'.place| ensures PtrOk(s', q) { assert PtrOk(s, q); }
  }

  lemma FinishingKeeps(s: Ring, t: nat, coin: bool)
    requires Inv(s) && Enabled(s, t) && s.threads[t].pc.Finishing?
    ensures Inv(Apply(s, Step(t, coin)))
  {
    hide Cell;
    var s' := Apply(s, Step(t, coin));
    assert ThreadOk(s, t);
    forall b | 0 <= b < |s'.boxes| ensures BoxOk(s', b) { assert BoxOk(s, b); }
    forall u | 0 <= u < |s'.threads| ensures ThreadOk(s', u) { assert ThreadOk(s, u); }
    forall q | 0 <= q < |s'.place| ensures PtrOk(s', q) { assert PtrOk(s, q); }
  }

  lemma CheckingKeeps(s: Ring, t: nat, coin: bool)
    requires Inv(s) && Enabled(s, t) && s.threads[t].pc.Checking?
    ensures Inv(Apply(s, Step(t, coin)))
  {
    hide Cell;
    assert ThreadOk(s, t);
    OwnStep(s, t, Apply(s, Step(t, coin)).threads[t]);
  }

  lemma StepInv(s: Ring, e: Step)
    requires Inv(s) && Enabled(s, e.t)
    ensures Inv(Apply(s, e)) && |Apply(s, e).threads| == |s.threads|
  {
    var t, coin := e.t, e.coin;
    match s.threads[t].pc
    case Draining(_, _) => if s.boxes[t].head == s.boxes[t].tail { DrainEndsKeeps(s, t); } else { PopKeeps(s, t); }
    case Freeing(_, _, _) => FreeingKeeps(s, t, coin);
    case Allocating => AllocateKeeps(s, t, coin);
    case Holding(_) => HoldingKeeps(s, t, coin);
    case Pushing(_) => PushingKeeps(s, t, coin);
    case Storing(_) => StoringKeeps(s, t, coin);
    case Bumping(_) => BumpingKeeps(s, t, coin);
    case Finishing => FinishingKeeps(s, t, coin);
    case Checking(_) => CheckingKeeps(s, t, coin);
    case Exited =>
  }

  // Whole runs.

  predicate CanRun(s: Ring, es: seq<Step>)
    decreases |es|, 0
  {
    es == [] || (CanRun(s, es[..|es| - 1]) && Enabled(Run(s, es[..|es| - 1]), es[|es| - 1].t))
  }

  function Run(s: Ring, es: seq<Step>): Ring
    requires CanRun(s, es)
    decreases |es|, 1
  {
    if es == [] then s else Apply(Run(s, es[..|es| - 1]), es[|es| - 1])
  }

  lemma {:induction false} RunInv(s: Ring, es: seq<Step>)
    requires Inv(s) && CanRun(s, es)
    ensures Inv(Run(s, es)) && |Run(s, es).threads| == |s.threads|
    decreases |es|
  {
    if es != [] {
      RunInv(s, es[..|es| - 1]);
      StepInv(Run(s, es[..|es| - 1]), es[|es| - 1]);
    }
  }

  /** Nothing is ever freed twice, and nothing in flight has been freed. */
  lemma NeverFreedTwice(n: nat, cap: nat, iters: nat, es: seq<Step>, p: Ptr)
    requires cap > 0 && CanRun(Start(n, cap, iters), es) && p < |Run(Start(n, cap, iters), es).frees|
    ensures var s := Run(Start(n, cap, iters), es); Shaped(s) && s.frees[p] == if s.place[p] == Gone then 1 else 0
  {
    StartInv(n, cap, iters);
    RunInv(Start(n, cap, iters), es);
    assert PtrOk(Run(Start(n, cap, iters), es), p);
  }

  /** A thread that has left found its predecessor past its last push and its
      own inbox empty, and both stay so through every later step. */
  lemma {:induction false} LeavesNothingBehind(s: Ring, es: seq<Step>, t: nat)
    requires Inv(s) && CanRun(s, es) && t < |s.threads| && s.threads[t].pc == Exited
    ensures var s' := Run(s, es);
      && Inv(s') && |s'.threads| == |s.threads| && s'.threads[t] == s.threads[t]
      && Over(s'.threads[Prev(|s.threads|, t)].pc)
      && s'.boxes[t].head == s'.boxes[t].tail == s.boxes[t].tail
    decreases |es|
  {
    RunInv(s, es);
    RingShape(|s.threads|, t);
    if es != [] {
      LeavesNothingBehind(s, es[..|es| - 1], t);
      OnlyOwnThread(Run(s, es[..|es| - 1]), es[|es| - 1], t);
    }
    var s' := Run(s, es);
    assert ThreadOk(s', t) && ThreadOk(s', Prev(|s.threads|, t)) && ThreadOk(s, t);
  }

  lemma OnlyOwnThread(s: Ring, e: Step, t: nat)
    requires Enabled(s, e.t) && t < |s.threads| && t != e.t
    ensures |Apply(s, e).threads| == |s.threads| && Apply(s, e).threads[t] == s.threads[t]
  {}

  lemma {:induction false} SumCons(x: nat, xs: seq<nat>)
    ensures Sum([x] + xs) == x + Sum(xs)
  {
    if xs == [] {
      assert ([x] + xs)[..0] == [];
    } else {
      SumCons(x, xs[..|xs| - 1]);
      assert ([x] + xs)[..|xs|] == [x] + xs[..|xs| - 1];
    }
  }

  function Drained(s: Ring): (r: seq<nat>)
    ensures |r| == |s.threads|
  {
    seq(|s.threads|, i requires 0 <= i < |s.threads| => s.threads[i].drained)
  }

  function Enqueued(s: Ring): (r: seq<nat>)
    ensures |r| == |s.threads|
  {
    seq(|s.threads|, i requires 0 <= i < |s.threads| => s.threads[i].enqueued)
  }

  lemma ExitedIsBalanced(s: Ring, t: nat)
    requires Inv(s) && t < |s.threads| && s.threads[t].pc == Exited
    ensures s.boxes[t].head == s.boxes[t].tail
    ensures Prev(|s.threads|, t) < |s.threads| && s.threads[t].drained == s.threads[Prev(|s.threads|, t)].enqueued
  {
    RingShape(|s.threads|, t);
    assert ThreadOk(s, t) && ThreadOk(s, Prev(|s.threads|, t));
  }

  ghost predicate AllGone(s: Ring) {
    forall t :: 0 <= t < |s.threads| ==> s.threads[t].pc == Exited
  }

  lemma AllFreed(s: Ring, p: Ptr)
    requires Inv(s) && p < |s.frees| && AllGone(s)
    ensures s.frees[p] == 1
  {
    forall t | 0 <= t < |s.threads| ensures s.boxes[t].head == s.boxes[t].tail { ExitedIsBalanced(s, t); }
    assert PtrOk(s, p);
  }

  lemma AllDrained(s: Ring)
    requires Inv(s) && AllGone(s)
    ensures Sum(Drained(s)) == Sum(Enqueued(s))
  {
    var n, enq := |s.threads|, Enqueued(s);
    if n > 0 {
      forall t | 0 <= t < n ensures Drained(s)[t] == enq[Prev(n, t)] { ExitedIsBalanced(s, t); }
      hide Inv;
      assert Drained(s) == [enq[n - 1]] + enq[..n - 1];
      SumCons(enq[n - 1], enq[..n - 1]);
    } else {
      assert Drained(s) == enq;
    }
  }

  /** Once every thread has left, every allocation has been freed exactly once,
      every inbox is empty, and as many objects were drained as were enqueued. */
  lemma AllExited(n: nat, cap: nat, iters: nat, es: seq<Step>)
    requires cap > 0 && CanRun(Start(n, cap, iters), es) && AllGone(Run(Start(n, cap, iters), es))
    ensures var s := Run(Start(n, cap, iters), es);
      && (forall p :: 0 <= p < |s.frees| ==> s.frees[p] == 1)
      && |s.boxes| == n && (forall b :: 0 <= b < n ==> s.boxes[b].head == s.boxes[b].tail)
      && Sum(Drained(s)) == Sum(Enqueued(s))
  {
    hide CanRun, Run;
    StartInv(n, cap, iters);
    RunInv(Start(n, cap, iters), es);
    var s := Run(Start(n, cap, iters), es);
    forall p | 0 <= p < |s.frees| ensures s.frees[p] == 1 { AllFreed(s, p); }
    forall t | 0 <= t < n ensures s.boxes[t].head == s.boxes[t].tail { ExitedIsBalanced(s, t); }
    AllDrained(s);
  }
}
