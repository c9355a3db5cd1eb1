/** The public-entry bench: every thread allocates, sends some objects to other
    threads' mutex inboxes, frees the rest, drains its own inbox now and then,
    and at the end drains it again after each of two barriers. */
module PublicBench {
  import opened Basics
  import opened RingIndex

  type Item = nat

  /** Where a thread is in its run. `Full` at an inbox drops the object. */
  datatype Pc = Polling | Allocating | Holding(item: Item) | Sending(item: Item, dst: nat)
              | AtFirst | FirstDrain | AtSecond | SecondDrain | Finished

  datatype Place = With(t: nat) | In(box: nat) | Freed | Dropped

  /** `done` counts completed iterations and `sent` the pushes each inbox has
      received; `place` records where each object is and `frees` how often it
      was freed. */
  datatype State = State(iters: nat, pcs: seq<Pc>, done: seq<nat>, boxes: seq<seq<Item>>, sent: seq<nat>, place: seq<Place>, frees: seq<nat>)

  /** `roll` is the random draw: 0 keeps the object, anything else picks the
      receiver. */
  datatype Step = Step(t: nat, roll: nat)

  function Threads(s: State): nat { |s.pcs| }

  /** iters * threads + 1. */
  function Capacity(s: State): nat { s.iters * Threads(s) + 1 }

  function Destination(threads: nat, t: nat, draw: nat): nat
    requires threads > 1
  {
    Cell(threads, t + 1 + Cell(threads - 1, draw))
  }

  /** The receiver is another thread, and every other thread can be chosen. */
  lemma DestinationIsAnother(threads: nat, t: nat, draw: nat)
    requires threads > 1 && t < threads
    ensures Destination(threads, t, draw) < threads && Destination(threads, t, draw) != t
  {
    var r := Cell(threads - 1, draw);
    SmallCell(threads, t);
    CellsApart(threads, t, t + 1 + r);
  }

  lemma EveryOtherIsChosen(threads: nat, t: nat, u: nat) returns (draw: nat)
    requires threads > 1 && t < threads && u < threads && u != t
    ensures Destination(threads, t, draw) == u
  {
    draw := if u > t then u - t - 1 else u + threads - t - 1;
    SmallCell(threads - 1, draw);
    SmallCell(threads, u);
    NextLap(threads, u);
  }

  function Start(threads: nat, iters: nat): State {
    State(iters, seq(threads, i => if iters == 0 then AtFirst else Polling), seq(threads, i => 0), seq(threads, i => []), seq(threads, i => 0), [], [])
  }

  predicate Shaped(s: State) {
    |s.done| == |s.boxes| == |s.sent| == |s.pcs| && |s.frees| == |s.place|
  }

  /** Every thread has arrived at the first, or the second, barrier. */
  predicate PastFirst(pc: Pc) { pc == AtFirst || pc == FirstDrain || PastSecond(pc) }

  predicate PastSecond(pc: Pc) { pc == AtSecond || pc == SecondDrain || pc == Finished }

  predicate Enabled(s: State, e: Step) {
    Shaped(s) && e.t < |s.pcs| &&
    match s.pcs[e.t]
    case AtFirst => forall u :: 0 <= u < |s.pcs| ==> PastFirst(s.pcs[u])
    case AtSecond => forall u :: 0 <= u < |s.pcs| ==> PastSecond(s.pcs[u])
    case Finished => false
    case Holding(p) => p < |s.place|
    case Sending(p, dst) => p < |s.place| && dst < |s.boxes|
    case _ => true
  }

  /** Frees every object in the box. */
  function FreeAll(place: seq<Place>, frees: seq<nat>, box: seq<Item>): (r: (seq<Place>, seq<nat>))
    requires |place| == |frees|
    ensures |r.0| == |r.1| == |place|
  {
    (seq(|place|, p requires 0 <= p < |place| => if p in box then Freed else place[p]),
     seq(|frees|, p requires 0 <= p < |frees| => if p in box then frees[p] + 1 else frees[p]))
  }

  function Drained(s: State, t: nat, pc: Pc): State
    requires Shaped(s) && t < |s.pcs|
  {
    var (place, frees) := FreeAll(s.place, s.frees, s.boxes[t]);
    s.(boxes := s.boxes[t := []], place := place, frees := frees, pcs := s.pcs[t := pc])
  }

  function EndIteration(s: State, t: nat): State
    requires Shaped(s) && t < |s.pcs|
  {
    s.(done := s.done[t := s.done[t] + 1], pcs := s.pcs[t := if s.done[t] + 1 < s.iters then Polling else AtFirst])
  }

  function Apply(s: State, e: Step): State
    requires Enabled(s, e)
  {
    var t := e.t;
    match s.pcs[t]
    case Polling => if s.done[t] % 32 == 0 then Drained(s, t, Allocating) else s.(pcs := s.pcs[t := Allocating])
    case Allocating => s.(place := s.place + [With(t)], frees := s.frees + [0], pcs := s.pcs[t := Holding(|s.place|)])
    case Holding(p) =>
      if |s.pcs| > 1 && e.roll != 0 then s.(pcs := s.pcs[t := Sending(p, Destination(|s.pcs|, t, e.roll))])
      else EndIteration(s.(place := s.place[p := Freed], frees := s.frees[p := s.frees[p] + 1]), t)
    case Sending(p, dst) =>
      if |s.boxes[dst]| < Capacity(s)
      then EndIteration(s.(boxes := s.boxes[dst := s.boxes[dst] + [p]], sent := s.sent[dst := s.sent[dst] + 1], place := s.place[p := In(dst)]), t)
      else EndIteration(s.(place := s.place[p := Dropped]), t)
    case AtFirst => s.(pcs := s.pcs[t := FirstDrain])
    case FirstDrain => Drained(s, t, AtSecond)
    case AtSecond => s.(pcs := s.pcs[t := SecondDrain])
    case SecondDrain => Drained(s, t, Finished)
    case _ => s
  }

  // Pushes are bounded by the other threads' iterations.

  lemma {:induction false} SumBound(xs: seq<nat>, k: nat)
    requires forall i :: 0 <= i < |xs| ==> xs[i] <= k
    ensures Sum(xs) <= k * |xs|
  {
    if xs != [] {
      SumBound(xs[..|xs| - 1], k);
    }
  }

  /** What the other threads have done so far. */
  function Others(done: seq<nat>, b: nat): int
    requires b < |done|
  {
    Sum(done) - done[b]
  }

  lemma OthersBound(done: seq<nat>, b: nat, iters: nat)
    requires b < |done| && forall u :: 0 <= u < |done| ==> done[u] <= iters
    ensures Others(done, b) <= iters * (|done| - 1)
  {
    SumUpdate(done, b, iters);
    SumBound(done[b := iters], iters);
    assert iters * |done| == iters * (|done| - 1) + iters;
  }

  // What every interleaving keeps.

  predicate Holds(pc: Pc, p: Item) {
    (pc.Holding? || pc.Sending?) && pc.item == p
  }

  ghost predicate BoxOk(s: State, b: nat)
    requires Shaped(s) && b < |s.pcs|
  {
    && |s.boxes[b]| <= s.sent[b] <= Others(s.done, b)
    && NoDup(s.boxes[b])
    && (forall p :: p in s.boxes[b] ==> p < |s.place| && s.place[p] == In(b))
    && (PastSecond(s.pcs[b]) ==> s.boxes[b] == [])
  }

  ghost predicate ThreadOk(s: State, t: nat)
    requires Shaped(s) && t < |s.pcs|
  {
    var pc := s.pcs[t];
    && (if PastFirst(pc) then s.done[t] == s.iters else s.done[t] < s.iters)
    && (pc.Holding? || pc.Sending? ==> pc.item < |s.place| && s.place[pc.item] == With(t))
    && (pc.Sending? ==> pc.dst < |s.pcs| && pc.dst != t)
    && (pc == FirstDrain || PastSecond(pc) ==> forall u :: 0 <= u < |s.pcs| ==> PastFirst(s.pcs[u]))
    && (pc == SecondDrain || pc == Finished ==> forall u :: 0 <= u < |s.pcs| ==> PastSecond(s.pcs[u]))
  }

  ghost predicate ItemOk(s: State, p: Item)
    requires Shaped(s) && p < |s.place|
  {
    match s.place[p]
    case With(t) => s.frees[p] == 0 && t < |s.pcs| && Holds(s.pcs[t], p)
    case In(b) => s.frees[p] == 0 && b < |s.boxes| && p in s.boxes[b]
    case Freed => s.frees[p] == 1
    case Dropped => false
  }

  ghost predicate Inv(s: State) {
    && Shaped(s)
    && (forall b :: 0 <= b < |s.pcs| ==> BoxOk(s, b))
    && (forall t :: 0 <= t < |s.pcs| ==> ThreadOk(s, t))
    && (forall p :: 0 <= p < |s.place| ==> ItemOk(s, p))
  }

  lemma {:induction false} SumZero(n: nat)
    ensures Sum(seq(n, i => 0)) == 0
  {
    if n > 0 {
      assert seq(n, i => 0)[..n - 1] == seq(n - 1, i => 0);
      SumZero(n - 1);
    }
  }

  lemma StartInv(threads: nat, iters: nat)
    ensures Inv(Start(threads, iters))
  {
    SumZero(threads);
  }

  /** No push ever finds an inbox full. */
  lemma NeverFull(s: State, b: nat)
    requires Inv(s) && b < |s.pcs|
    ensures |s.boxes[b]| < Capacity(s)
  {
    assert BoxOk(s, b);
    forall u | 0 <= u < |s.done| ensures s.done[u] <= s.iters { assert ThreadOk(s, u); }
    OthersBound(s.done, b, s.iters);
    assert s.iters * (|s.done| - 1) + s.iters == s.iters * |s.done|;
  }

  lemma DrainKeeps(s: State, t: nat, pc: Pc)
    requires Inv(s) && t < |s.pcs| && !Holds'(s.pcs[t]) && !Holds'(pc)
    requires PastFirst(pc) == PastFirst(s.pcs[t]) && (PastSecond(s.pcs[t]) ==> PastSecond(pc))
    requires pc == FirstDrain || PastSecond(pc) ==> s.pcs[t] == FirstDrain || PastSecond(s.pcs[t])
    requires pc == SecondDrain || pc == Finished ==> s.pcs[t] == SecondDrain || s.pcs[t] == Finished
    ensures Inv(Drained(s, t, pc))
  {
    var s' := Drained(s, t, pc);
    assert BoxOk(s, t) && ThreadOk(s, t);
    forall b | 0 <= b < |s'.pcs| ensures BoxOk(s', b) { assert BoxOk(s, b); }
    forall u | 0 <= u < |s'.pcs| ensures ThreadOk(s', u) { assert ThreadOk(s, u); }
    forall p | 0 <= p < |s'.place| ensures ItemOk(s', p) { assert ItemOk(s, p); }
  }

  predicate Holds'(pc: Pc) { pc.Holding? || pc.Sending? }

  /** Only the thread's own position changes. */
  lemma MoveKeeps(s: State, t: nat, pc: Pc)
    requires Inv(s) && t < |s.pcs| && (forall p: Item :: Holds(pc, p) <==> Holds(s.pcs[t], p))
    requires PastFirst(pc) == PastFirst(s.pcs[t]) && PastSecond(pc) == PastSecond(s.pcs[t])
    requires ThreadOk(s.(pcs := s.pcs[t := pc]), t)
    ensures Inv(s.(pcs := s.pcs[t := pc]))
  {
    var s' := s.(pcs := s.pcs[t := pc]);
    forall b | 0 <= b < |s'.pcs| ensures BoxOk(s', b) { assert BoxOk(s, b); }
    forall u | 0 <= u < |s'.pcs| ensures ThreadOk(s', u) { assert ThreadOk(s, u); }
    forall p | 0 <= p < |s'.place| ensures ItemOk(s', p) { assert ItemOk(s, p); }
  }

  lemma AllocateKeeps(s: State, e: Step)
    requires Inv(s) && Enabled(s, e) && s.pcs[e.t] == Allocating
    ensures Inv(Apply(s, e))
  {
    var s' := Apply(s, e);
    assert ThreadOk(s, e.t);
    forall b | 0 <= b < |s'.pcs| ensures BoxOk(s', b) { assert BoxOk(s, b); }
    forall u | 0 <= u < |s'.pcs| ensures ThreadOk(s', u) { assert ThreadOk(s, u); }
    forall p | 0 <= p < |s'.place| ensures ItemOk(s', p) { if p < |s.place| { assert ItemOk(s, p); } }
  }

  lemma KeepKeeps(s: State, e: Step)
    requires Inv(s) && Enabled(s, e) && s.pcs[e.t].Holding?
    ensures Inv(Apply(s, e))
  {
    var t, p := e.t, s.pcs[e.t].item;
    var s' := Apply(s, e);
    assert ThreadOk(s, t) && ItemOk(s, p);
    if |s.pcs| > 1 && e.roll != 0 {
      DestinationIsAnother(|s.pcs|, t, e.roll);
      MoveKeeps(s, t, s'.pcs[t]);
    } else {
      FreeKeeps(s, e);
    }
  }

  /** The thread frees the object itself. */
  lemma FreeKeeps(s: State, e: Step)
    requires Inv(s) && Enabled(s, e) && s.pcs[e.t].Holding? && !(|s.pcs| > 1 && e.roll != 0)
    ensures Inv(Apply(s, e))
  {
    hide Sum, BoxOk, ThreadOk, ItemOk, PastFirst, PastSecond;
    var s' := Apply(s, e);
    forall b | 0 <= b < |s'.pcs| ensures BoxOk(s', b) { FreeSparesBox(s, e, b); }
    forall u | 0 <= u < |s'.pcs| ensures ThreadOk(s', u) { FreeSparesThread(s, e, u); }
    forall q | 0 <= q < |s'.place| ensures ItemOk(s', q) { FreeSparesItem(s, e, q); }
  }

  lemma FreeSparesBox(s: State, e: Step, b: nat)
    requires Inv(s) && Enabled(s, e) && s.pcs[e.t].Holding? && !(|s.pcs| > 1 && e.roll != 0) && b < |s.pcs|
    ensures BoxOk(Apply(s, e), b)
  {
    hide Sum, ItemOk;
    SumUpdate(s.done, e.t, s.done[e.t] + 1);
    assert BoxOk(s, b) && ThreadOk(s, e.t);
  }

  lemma FreeSparesThread(s: State, e: Step, u: nat)
    requires Inv(s) && Enabled(s, e) && s.pcs[e.t].Holding? && !(|s.pcs| > 1 && e.roll != 0) && u < |s.pcs|
    ensures ThreadOk(Apply(s, e), u)
  {
    hide Sum, BoxOk, ItemOk;
    assert ThreadOk(s, u) && ThreadOk(s, e.t);
  }

  lemma FreeSparesItem(s: State, e: Step, q: Item)
    requires Inv(s) && Enabled(s, e) && s.pcs[e.t].Holding? && !(|s.pcs| > 1 && e.roll != 0) && q < |s.place|
    ensures ItemOk(Apply(s, e), q)
  {
    hide Sum, BoxOk;
    assert ItemOk(s, q) && ThreadOk(s, e.t) && ItemOk(s, s.pcs[e.t].item);
  }

  lemma SendKeeps(s: State, e: Step)
    requires Inv(s) && Enabled(s, e) && s.pcs[e.t].Sending?
    ensures Inv(Apply(s, e))
  {
    hide Sum, Capacity;
    var t, p, dst := e.t, s.pcs[e.t].item, s.pcs[e.t].dst;
    var s' := Apply(s, e);
    assert ThreadOk(s, t) && ItemOk(s, p) && ThreadOk(s, dst);
    NeverFull(s, dst);
    SumUpdate(s.done, t, s.done[t] + 1);
    forall b | 0 <= b < |s'.pcs| ensures BoxOk(s', b) { assert BoxOk(s, b); }
    forall u | 0 <= u < |s'.pcs| ensures ThreadOk(s', u) { assert ThreadOk(s, u); }
    forall q | 0 <= q < |s'.place| ensures ItemOk(s', q) { assert ItemOk(s, q); }
  }

  lemma StepInv(s: State, e: Step)
    requires Inv(s) && Enabled(s, e)
    ensures Inv(Apply(s, e)) && |Apply(s, e).pcs| == |s.pcs|
  {
    var t := e.t;
    assert ThreadOk(s, t) && BoxOk(s, t);
    match s.pcs[t]
    case Polling => if s.done[t] % 32 == 0 { DrainKeeps(s, t, Allocating); } else { MoveKeeps(s, t, Allocating); }
    case Allocating => AllocateKeeps(s, e);
    case Holding(_) => KeepKeeps(s, e);
    case Sending(_, _) => SendKeeps(s, e);
    case AtFirst => MoveKeeps(s, t, FirstDrain);
    case FirstDrain => DrainKeeps(s, t, AtSecond);
    case AtSecond => MoveKeeps(s, t, SecondDrain);
    case SecondDrain => DrainKeeps(s, t, Finished);
    case Finished =>
  }

  // Whole runs.

  predicate CanRun(s: State, es: seq<Step>)
    decreases |es|, 0
  {
    es == [] || (CanRun(s, es[..|es| - 1]) && Enabled(Run(s, es[..|es| - 1]), es[|es| - 1]))
  }

  function Run(s: State, es: seq<Step>): State
    requires CanRun(s, es)
    decreases |es|, 1
  {
    if es == [] then s else Apply(Run(s, es[..|es| - 1]), es[|es| - 1])
  }

  lemma {:induction false} RunInv(s: State, es: seq<Step>)
    requires Inv(s) && CanRun(s, es)
    ensures Inv(Run(s, es)) && |Run(s, es).pcs| == |s.pcs|
    decreases |es|
  {
    if es != [] {
      RunInv(s, es[..|es| - 1]);
      StepInv(Run(s, es[..|es| - 1]), es[|es| - 1]);
    }
  }

  /** No object is dropped: the full branch of a push is never taken, in any
      interleaving, and the second drain never finds anything. */
  lemma NothingIsDropped(threads: nat, iters: nat, es: seq<Step>, t: nat)
    requires CanRun(Start(threads, iters), es) && t < threads
    ensures var s := Run(Start(threads, iters), es);
      && |s.boxes| == |s.sent| == |s.pcs| == threads
      && |s.boxes[t]| < Capacity(s) && s.sent[t] <= s.iters * (threads - 1)
      && (forall p :: 0 <= p < |s.place| ==> s.place[p] != Dropped)
      && (s.pcs[t] == AtSecond || s.pcs[t] == SecondDrain ==> s.boxes[t] == [])
  {
    StartInv(threads, iters);
    RunInv(Start(threads, iters), es);
    var s := Run(Start(threads, iters), es);
    NeverFull(s, t);
    assert BoxOk(s, t);
    forall u | 0 <= u < |s.done| ensures s.done[u] <= s.iters { assert ThreadOk(s, u); }
    OthersBound(s.done, t, s.iters);
    forall p | 0 <= p < |s.place| ensures s.place[p] != Dropped { assert ItemOk(s, p); }
  }

  /** The barriers hold: a thread drains after the first one only when all have
      reached it, and after the second only when all have drained once. */
  lemma BarriersHold(threads: nat, iters: nat, es: seq<Step>, t: nat, u: nat)
    requires CanRun(Start(threads, iters), es) && t < threads && u < threads
    ensures var s := Run(Start(threads, iters), es);
      && |s.pcs| == threads
      && (s.pcs[t] == FirstDrain || PastSecond(s.pcs[t]) ==> PastFirst(s.pcs[u]))
      && (s.pcs[t] == SecondDrain || s.pcs[t] == Finished ==> PastSecond(s.pcs[u]))
  {
    StartInv(threads, iters);
    RunInv(Start(threads, iters), es);
    assert ThreadOk(Run(Start(threads, iters), es), t);
  }

  /** When all threads have finished, every inbox is empty and every object that
      was allocated has been freed exactly once. */
  lemma AllFreedAtTheEnd(threads: nat, iters: nat, es: seq<Step>, p: Item)
    requires CanRun(Start(threads, iters), es) && p < |Run(Start(threads, iters), es).frees|
    requires forall t :: 0 <= t < |Run(Start(threads, iters), es).pcs| ==> Run(Start(threads, iters), es).pcs[t] == Finished
    ensures var s := Run(Start(threads, iters), es);
      s.frees[p] == 1 && |s.boxes| == threads && forall b :: 0 <= b < threads ==> s.boxes[b] == []
  {
    StartInv(threads, iters);
    RunInv(Start(threads, iters), es);
    var s := Run(Start(threads, iters), es);
    forall b | 0 <= b < threads ensures s.boxes[b] == [] { assert BoxOk(s, b); }
    assert ItemOk(s, p);
  }

  // Every run ends.

  /** At least how many steps the thread has still to take. */
  function Work(iters: nat, done: nat, pc: Pc): nat {
    match pc
    case AtFirst => 4 case FirstDrain => 3 case AtSecond => 2 case SecondDrain => 1 case Finished => 0
    case _ => 4 * (if done < iters then iters - done else 0) + (match pc case Polling => 4 case Allocating => 3 case Holding(_) => 2 case _ => 1)
  }

  function Works(s: State): (r: seq<nat>)
    requires Shaped(s)
    ensures |r| == |s.pcs| && forall t :: 0 <= t < |r| ==> r[t] == Work(s.iters, s.done[t], s.pcs[t])
  {
    seq(|s.pcs|, t requires 0 <= t < |s.pcs| => Work(s.iters, s.done[t], s.pcs[t]))
  }

  /** Every step uses up work of the thread that takes it. */
  lemma StepWorks(s: State, e: Step)
    requires Inv(s) && Enabled(s, e)
    ensures Shaped(Apply(s, e)) && Sum(Works(Apply(s, e))) < Sum(Works(s))
  {
    hide Sum, BoxOk, ItemOk;
    var s', t := Apply(s, e), e.t;
    assert ThreadOk(s, t);
    SumUpdate(Works(s), t, Works(s')[t]);
    assert Works(s') == Works(s)[t := Works(s')[t]];
  }

  /** Somebody can go on until all have finished: neither barrier locks up. */
  lemma NobodyStuck(s: State)
    requires Inv(s) && exists t :: 0 <= t < |s.pcs| && s.pcs[t] != Finished
    ensures exists t :: CanGoOn(s, t)
  {
    hide BoxOk, ItemOk;
    var t := MostBehind(s);
    assert ThreadOk(s, t);
    assert CanGoOn(s, t);
  }

  /** The thread can take a step, whatever it draws. */
  ghost predicate CanGoOn(s: State, t: nat) {
    t < |s.pcs| && forall roll :: Enabled(s, Step(t, roll))
  }

  predicate AtBarrier(pc: Pc) { pc == AtFirst || pc == AtSecond || pc == Finished }

  /** A thread that does not wait, or else one at the first barrier, or else one
      at the second. */
  lemma MostBehind(s: State) returns (t: nat)
    requires exists u :: 0 <= u < |s.pcs| && s.pcs[u] != Finished
    ensures t < |s.pcs| && s.pcs[t] != Finished
    ensures s.pcs[t] == AtFirst ==> forall u :: 0 <= u < |s.pcs| ==> PastFirst(s.pcs[u])
    ensures s.pcs[t] == AtSecond ==> forall u :: 0 <= u < |s.pcs| ==> PastSecond(s.pcs[u])
  {
    if u :| 0 <= u < |s.pcs| && !AtBarrier(s.pcs[u]) {
      t := u;
    } else if u :| 0 <= u < |s.pcs| && s.pcs[u] == AtFirst {
      t := u;
    } else {
      t :| 0 <= t < |s.pcs| && s.pcs[t] != Finished;
    }
  }

  lemma {:induction false} SumOfSame(xs: seq<nat>, c: nat)
    requires forall i :: 0 <= i < |xs| ==> xs[i] == c
    ensures Sum(xs) == |xs| * c
  {
    if xs != [] { SumOfSame(xs[..|xs| - 1], c); }
  }

  lemma {:induction false} RunWorks(s: State, es: seq<Step>)
    requires Inv(s) && CanRun(s, es)
    ensures Shaped(Run(s, es)) && |es| + Sum(Works(Run(s, es))) <= Sum(Works(s))
    decreases |es|
  {
    hide BoxOk, ThreadOk, ItemOk, Enabled, Apply, Works, Sum;
    if es != [] {
      RunInv(s, es[..|es| - 1]);
      RunWorks(s, es[..|es| - 1]);
      StepWorks(Run(s, es[..|es| - 1]), es[|es| - 1]);
    }
  }

  /** No run is longer than 4 * iterations + 4 steps a thread, whatever the draws
      and the schedule, and none stops before all threads have finished. */
  lemma EveryRunFinishes(threads: nat, iters: nat, es: seq<Step>)
    requires CanRun(Start(threads, iters), es)
    ensures |es| <= threads * (4 * iters + 4)
    ensures var s := Run(Start(threads, iters), es);
      |s.pcs| == threads && ((forall t :: 0 <= t < threads ==> s.pcs[t] == Finished) || exists t :: CanGoOn(s, t))
  {
    hide Enabled, Apply, Sum;
    StartInv(threads, iters);
    RunInv(Start(threads, iters), es);
    RunWorks(Start(threads, iters), es);
    SumOfSame(Works(Start(threads, iters)), if iters == 0 then 4 else 4 * iters + 4);
    var s := Run(Start(threads, iters), es);
    if exists t :: 0 <= t < threads && s.pcs[t] != Finished { NobodyStuck(s); }
  }
}
