/** Every run of the spin bench is bounded, and where no push can wait for ever
    none stops before all workers have finished. */
module SpinProgress {
  import opened Basics
  import opened SpinBench
  import B = PublicBench
  import T = TicketInbox

  /** A drain's steps to its end, once nothing is left to deliver. */
  function Rank(c: T.Consumer): nat {
    match c
    case Outside => 0 case Leaving(_) => 1 case Freeing(_, _) => 2 case Clearing(_, _) => 3 case Loading(_) => 4 case Testing(_) => 5 case Releasing(_) => 6
  }

  function BoxWork(x: T.State): nat {
    Rank(x.consumer) + 6 * (if |x.freed| < |x.sent| then |x.sent| - |x.freed| else 0)
  }

  function PushWork(s: State, t: nat, dst: nat): nat {
    if dst < |s.boxes| && t in s.boxes[dst].producers then
      match s.boxes[dst].producers[t] case Waiting(_, _) => 3 case Writing(_, _) => 2 case Publishing(_, _) => 1
    else 0
  }

  /** At least how many steps worker `t` has still to take. */
  function Work(s: State, t: nat): nat
    requires |s.done| == |s.pcs| && t < |s.pcs|
  {
    match s.pcs[t]
    case AtFirst => 20 case Draining(First) => 14 case AtSecond => 14 case Draining(Second) => 8 case Finished => 0
    case _ =>
      30 * (if s.done[t] < s.iters then s.iters - s.done[t] else 0)
      + (match s.pcs[t] case Polling => 20 case Holding(_) => 13 case Sending(_, dst) => PushWork(s, t, dst) case _ => 14)
  }

  function Works(s: State): (r: seq<nat>)
    requires |s.done| == |s.pcs|
    ensures |r| == |s.pcs| && forall t :: 0 <= t < |r| ==> r[t] == Work(s, t)
  {
    seq(|s.pcs|, t requires 0 <= t < |s.pcs| => Work(s, t))
  }

  function BoxWorks(s: State): (r: seq<nat>)
    ensures |r| == |s.boxes| && forall b :: 0 <= b < |r| ==> r[b] == BoxWork(s.boxes[b])
  {
    seq(|s.boxes|, b requires 0 <= b < |s.boxes| => BoxWork(s.boxes[b]))
  }

  function Total(s: State): nat
    requires |s.done| == |s.pcs|
  {
    Sum(Works(s)) + Sum(BoxWorks(s))
  }

  lemma ConsumeWorks(x: T.State)
    requires T.Inv(x) && T.Cap(x) >= 2
    ensures var x' := T.Apply(x, T.Consume);
      && (if x.consumer.Outside? then BoxWork(x') == BoxWork(x) + 5 else BoxWork(x') < BoxWork(x))
      && (x'.consumer.Outside? <==> x.consumer.Leaving?)
  {
    ConsumeDoes(x);
    T.FreedIsSent(x);
    hide T.Inv;
  }

  /** One worker's work and one inbox have changed. */
  lemma TotalChange(s: State, s': State, t: nat, b: nat)
    requires |s.done| == |s.pcs| == |s'.pcs| == |s'.done| && |s.boxes| == |s'.boxes| && t < |s.pcs| && b < |s.boxes|
    requires forall u :: 0 <= u < |s.pcs| && u != t ==> Work(s', u) == Work(s, u)
    requires forall c :: 0 <= c < |s.boxes| && c != b ==> s'.boxes[c] == s.boxes[c]
    ensures Total(s') == Total(s) - Work(s, t) + Work(s', t) - BoxWork(s.boxes[b]) + BoxWork(s'.boxes[b])
  {
    hide Work, BoxWork, Sum;
    SumUpdate(Works(s), t, Work(s', t));
    assert Works(s') == Works(s)[t := Work(s', t)];
    SumUpdate(BoxWorks(s), b, BoxWork(s'.boxes[b]));
    assert BoxWorks(s') == BoxWorks(s)[b := BoxWork(s'.boxes[b])];
  }

  /** Every step uses up work. */
  lemma StepWorks(s: State, e: Step)
    requires Inv(s) && Enabled(s, e)
    ensures |Apply(s, e).done| == |Apply(s, e).pcs| && Total(Apply(s, e)) < Total(s)
  {
    hide T.Inv, T.Apply, T.Enabled, B.Destination, BoxOk, ItemOk, SentOk, Sum, Works, BoxWorks, Total, BoxWork, PushStep;
    var s', t := Apply(s, e), e.t;
    assert ThreadOk(s, t);
    StepShaped(s, e);
    match s.pcs[t]
    case Sending(p, dst) => PushWorks(s, e);
    case Holding(p) => if Keeps(s, e) { OwnWorks(s, e); } else { TakeWorks(s, e); }
    case Allocating => OwnWorks(s, e);
    case Polling => if s.done[t] % 32 == 0 { DrainWorks(s, t, InLoop); } else { OwnWorks(s, e); }
    case Draining(phase) => DrainWorks(s, t, phase);
    case AtFirst => DrainWorks(s, t, First);
    case AtSecond => DrainWorks(s, t, Second);
    case Finished =>
  }

  /** A step that touches no inbox. */
  lemma OwnWorks(s: State, e: Step)
    requires Inv(s) && Enabled(s, e)
    requires s.pcs[e.t] == Allocating || (s.pcs[e.t].Holding? && Keeps(s, e)) || (s.pcs[e.t] == Polling && s.done[e.t] % 32 != 0)
    ensures |Apply(s, e).done| == |Apply(s, e).pcs| && Total(Apply(s, e)) < Total(s)
  {
    hide T.Inv, BoxOk, ItemOk, SentOk, BoxWork, Total;
    assert ThreadOk(s, e.t);
    TotalChange(s, Apply(s, e), e.t, e.t);
  }

  lemma DrainWorks(s: State, t: nat, phase: Phase)
    requires Inv(s) && Drains(s, t, phase)
    ensures |Drain(s, t, phase).done| == |Drain(s, t, phase).pcs| && Total(Drain(s, t, phase)) < Total(s)
  {
    hide T.Inv, T.Apply, ItemOk, SentOk, BoxWork, Total;
    assert ThreadOk(s, t) && BoxOk(s, t);
    ConsumeDoes(s.boxes[t]);
    ConsumeWorks(s.boxes[t]);
    TotalChange(s, Drain(s, t, phase), t, t);
  }

  lemma TakeWorks(s: State, e: Step)
    requires Inv(s) && Takes(s, e)
    ensures |Apply(s, e).done| == |Apply(s, e).pcs| && Total(Apply(s, e)) < Total(s)
  {
    hide T.Inv, T.Apply, T.Enabled, B.Destination, BoxOk, ItemOk, SentOk, Total;
    TakeFacts(s, e);
    assert ThreadOk(s, e.t);
    var dst := B.Destination(|s.pcs|, e.t, e.roll);
    forall u | 0 <= u < |s.pcs| && u != e.t ensures Work(Apply(s, e), u) == Work(s, u) { assert ThreadOk(s, u); }
    TotalChange(s, Apply(s, e), e.t, dst);
  }

  lemma PushWorks(s: State, e: Step)
    requires Inv(s) && Pushes(s, e)
    ensures |Apply(s, e).done| == |Apply(s, e).pcs| && Total(Apply(s, e)) < Total(s)
  {
    hide T.Inv, BoxOk, ItemOk, SentOk, Total;
    PushFacts(s, e);
    assert ThreadOk(s, e.t);
    hide T.Apply;
    var dst := s.pcs[e.t].dst;
    PushPhase(s.boxes[dst], e.t);
    forall u | 0 <= u < |s.pcs| && u != e.t ensures Work(Apply(s, e), u) == Work(s, u) { assert ThreadOk(s, u); }
    TotalChange(s, Apply(s, e), e.t, dst);
  }

  lemma PushPhase(x: T.State, t: nat)
    requires t in x.producers && T.Enabled(x, PushStep(x, t))
    ensures var x' := T.Apply(x, PushStep(x, t));
      match x.producers[t]
      case Waiting(_, _) => t in x'.producers && x'.producers[t].Writing?
      case Writing(_, _) => t in x'.producers && x'.producers[t].Publishing?
      case Publishing(_, _) => t !in x'.producers
  {}

  // Whole runs.

  lemma {:induction false} RunWorks(s: State, es: seq<Step>)
    requires Inv(s) && CanRun(s, es)
    ensures |Run(s, es).done| == |Run(s, es).pcs| && |es| + Total(Run(s, es)) <= Total(s)
    decreases |es|
  {
    hide BoxOk, ThreadOk, ItemOk, SentOk, Enabled, Apply, Total;
    if es != [] {
      RunInv(s, es[..|es| - 1]);
      RunWorks(s, es[..|es| - 1]);
      StepWorks(Run(s, es[..|es| - 1]), es[|es| - 1]);
    }
  }

  /** The worker can take a step, whatever it draws. */
  ghost predicate CanGoOn(s: State, t: nat) {
    t < |s.pcs| && forall roll :: Enabled(s, Step(t, roll))
  }

  predicate AtBarrier(pc: Pc) { pc == AtFirst || pc == AtSecond || pc == Finished }

  /** A worker that is not at a barrier can go on unless it waits for room. */
  lemma OnlyWaitersStop(s: State, t: nat)
    requires Inv(s) && t < |s.pcs| && !AtBarrier(s.pcs[t]) && !s.pcs[t].Sending?
    ensures CanGoOn(s, t)
  {
    hide T.Inv, T.Enabled, ItemOk, SentOk, B.Destination;
    assert ThreadOk(s, t);
    if s.pcs[t].Holding? {
      forall roll ensures Enabled(s, Step(t, roll)) {
        if |s.pcs| > 1 {
          B.DestinationIsAnother(|s.pcs|, t, roll);
          assert BoxOk(s, B.Destination(|s.pcs|, t, roll));
        }
      }
    }
  }

  /** A worker that does not wait at a barrier, or else one at the first, or else
      one at the second. */
  lemma MostBehind(s: State) returns (t: nat)
    requires exists u :: 0 <= u < |s.pcs| && s.pcs[u] != Finished
    ensures t < |s.pcs| && s.pcs[t] != Finished
    ensures s.pcs[t] == AtFirst ==> forall u :: 0 <= u < |s.pcs| ==> PastFirst(s.pcs[u])
    ensures s.pcs[t] == AtSecond ==> forall u :: 0 <= u < |s.pcs| ==> PastSecond(s.pcs[u])
  {
    if u :| 0 <= u < |s.pcs| && !AtBarrier(s.pcs[u]) {
      t := u;
    } else if u :| 0 <= u < |s.pcs| && s.pcs[u] == AtFirst {
      t := u;
    } else {
      t :| 0 <= t < |s.pcs| && s.pcs[t] != Finished;
    }
  }

  /** No run is longer than 30 * iterations + 20 steps a worker. Where an inbox
      has room for all iterations of the other workers, none stops before all
      have finished, whatever the draws and the schedule. */
  lemma EveryRunFinishes(threads: nat, iters: nat, cap: nat, es: seq<Step>)
    requires cap >= 2 && CanRun(Start(threads, iters, cap), es)
    ensures |es| <= threads * (30 * iters + 20)
    ensures var s := Run(Start(threads, iters, cap), es);
      && |s.pcs| == threads
      && (cap >= iters * (threads - 1) ==> (forall t :: 0 <= t < threads ==> s.pcs[t] == Finished) || exists t :: CanGoOn(s, t))
  {
    hide Inv, Enabled, Apply, Total, CanGoOn, Stuck;
    StartInv(threads, iters, cap);
    RunInv(Start(threads, iters, cap), es);
    RunWorks(Start(threads, iters, cap), es);
    StartTotal(threads, iters, cap);
    var s := Run(Start(threads, iters, cap), es);
    if cap >= iters * (threads - 1) && exists t :: 0 <= t < threads && s.pcs[t] != Finished {
      var t := MostBehind(s);
      if s.pcs[t].Sending? {
        forall roll ensures Enabled(s, Step(t, roll)) { DefaultNeverWaits(threads, iters, cap, es, t, roll); }
        GoesOn(s, t);
      } else if AtBarrier(s.pcs[t]) {
        BarrierOpens(s, t);
      } else {
        OnlyWaitersStop(s, t);
      }
    }
  }

  lemma GoesOn(s: State, t: nat)
    requires t < |s.pcs| && forall roll :: Enabled(s, Step(t, roll))
    ensures CanGoOn(s, t)
  {}

  lemma BarrierOpens(s: State, t: nat)
    requires Inv(s) && t < |s.pcs| && AtBarrier(s.pcs[t]) && s.pcs[t] != Finished
    requires s.pcs[t] == AtFirst ==> forall u :: 0 <= u < |s.pcs| ==> PastFirst(s.pcs[u])
    requires s.pcs[t] == AtSecond ==> forall u :: 0 <= u < |s.pcs| ==> PastSecond(s.pcs[u])
    ensures CanGoOn(s, t)
  {
    hide T.Inv, BoxOk, ThreadOk, ItemOk, SentOk;
  }

  lemma StartTotal(threads: nat, iters: nat, cap: nat)
    ensures Total(Start(threads, iters, cap)) == threads * (30 * iters + 20)
  {
    var s := Start(threads, iters, cap);
    B.SumOfSame(Works(s), if iters == 0 then 20 else 30 * iters + 20);
    B.SumOfSame(BoxWorks(s), 0);
  }
}
