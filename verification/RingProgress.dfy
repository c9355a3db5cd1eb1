/** The ring bench can always be brought to its end: no full inbox, no cycle of
    full inboxes and no thread that left early can lock it up. */
module RingProgress {
  import opened Basics
  import opened RingIndex
  import opened RingExit

  /** Bound on what the thread has still to do before it stores `done`. A thread
      that retries a push may go round without doing any of it. */
  function Load(th: Thread): nat {
    10 * th.left +
    (match th.pc
     case Draining(Iteration, _) => 8 case Freeing(Iteration, _, _) => 8
     case Draining(Retry(_), _) => 5 case Freeing(Retry(_), _, _) => 5
     case Allocating => 7 case Holding(_) => 6 case Pushing(_) => 5 case Storing(_) => 4 case Bumping(_) => 3 case Finishing => 1
     case _ => 0)
  }

  function Items(box: Box): nat { if box.head <= box.tail then box.tail - box.head else 0 }

  /** The steps that use up no load: until the thread takes an object out of its
      inbox, or with an empty one until it goes on or leaves. */
  function Delay(pc: Pc, empty: bool): nat {
    if !empty then (if pc.Freeing? || pc.Checking? || pc.Pushing? then 1 else 0)
    else
      match pc
      case Draining(Iteration, _) => 1 case Draining(Retry(_), _) => 1
      case Freeing(Iteration, _, _) => 2 case Freeing(Retry(_), _, _) => 2
      case Exited => 0
      case Draining(Final, got) => if got == 0 then 1 else 4
      case Checking(got) => if got == 0 then 2 else 4
      case Draining(Tail, got) => if got == 0 then 3 else 5
      case Freeing(_, _, _) => 6
      case _ => 0
  }

  function Loads(s: Ring): (r: seq<nat>)
    ensures |r| == |s.threads| && forall t :: 0 <= t < |r| ==> r[t] == Load(s.threads[t])
  {
    seq(|s.threads|, t requires 0 <= t < |s.threads| => Load(s.threads[t]))
  }

  function Contents(s: Ring): (r: seq<nat>)
    ensures |r| == |s.boxes| && forall b :: 0 <= b < |r| ==> r[b] == Items(s.boxes[b])
  {
    seq(|s.boxes|, b requires 0 <= b < |s.boxes| => Items(s.boxes[b]))
  }

  function Delays(s: Ring): (r: seq<nat>)
    requires |s.boxes| == |s.threads|
    ensures |r| == |s.threads| && forall t :: 0 <= t < |r| ==> r[t] == Delay(s.threads[t].pc, Items(s.boxes[t]) == 0)
  {
    seq(|s.threads|, t requires 0 <= t < |s.threads| => Delay(s.threads[t].pc, Items(s.boxes[t]) == 0))
  }

  function ToDo(s: Ring): nat { Sum(Loads(s)) + Sum(Contents(s)) }

  /** The step brings the end nearer. */
  predicate Nearer(s: Ring, s': Ring)
    requires |s.boxes| == |s.threads| && |s'.boxes| == |s'.threads|
  {
    ToDo(s') < ToDo(s) || (ToDo(s') == ToDo(s) && Sum(Delays(s')) < Sum(Delays(s)))
  }

  lemma ThreadEnabled(s: Ring, t: nat)
    requires Inv(s) && t < |s.threads| && s.threads[t].pc != Exited
    ensures Enabled(s, t)
  {
    var pc := s.threads[t].pc;
    assert ThreadOk(s, t) && BoxOk(s, t);
    if pc.Freeing? { assert Carries(pc, pc.out); }
    if pc.Holding? || pc.Bumping? { assert Carries(pc, pc.ptr); }
  }

  // One helpful thread.

  /** `t` owns an inbox that is not empty; or all are empty and `t` has not stored
      `done`; or all have, and `t` has not left. */
  ghost predicate Helpful(s: Ring, t: nat)
    requires |s.boxes| == |s.threads|
  {
    && t < |s.threads| && s.threads[t].pc != Exited
    && (Items(s.boxes[t]) > 0
        || ((forall b :: 0 <= b < |s.boxes| ==> Items(s.boxes[b]) == 0)
            && (!Over(s.threads[t].pc) || forall u :: 0 <= u < |s.threads| ==> Over(s.threads[u].pc))))
  }

  lemma FindHelpful(s: Ring) returns (t: nat)
    requires Inv(s) && !AllGone(s)
    ensures Helpful(s, t)
  {
    hide PtrOk;
    if b :| 0 <= b < |s.boxes| && Items(s.boxes[b]) > 0 {
      t := b;
      assert ThreadOk(s, t);
    } else if u :| 0 <= u < |s.threads| && !Over(s.threads[u].pc) {
      t := u;
    } else {
      t :| 0 <= t < |s.threads| && s.threads[t].pc != Exited;
    }
  }

  /** Only the thread's own record has changed. */
  lemma OwnSums(s: Ring, s': Ring, t: nat)
    requires |s.boxes| == |s.threads| == |s'.threads| && t < |s.threads| && s'.boxes == s.boxes && s'.threads == s.threads[t := s'.threads[t]]
    ensures ToDo(s') == ToDo(s) - Load(s.threads[t]) + Load(s'.threads[t])
    ensures Sum(Delays(s')) == Sum(Delays(s)) - Delays(s)[t] + Delays(s')[t]
  {
    hide Load, Items, Delay, Sum;
    SumUpdate(Loads(s), t, Load(s'.threads[t]));
    assert Loads(s') == Loads(s)[t := Load(s'.threads[t])];
    assert Contents(s') == Contents(s);
    SumUpdate(Delays(s), t, Delays(s')[t]);
    assert Delays(s') == Delays(s)[t := Delays(s')[t]];
  }

  /** So has inbox `b`. */
  lemma BoxSums(s: Ring, s': Ring, t: nat, b: nat)
    requires |s.boxes| == |s.threads| && t < |s.threads| && b < |s.boxes|
    requires |s'.threads| == |s.threads| && |s'.boxes| == |s.boxes| && s'.threads == s.threads[t := s'.threads[t]] && s'.boxes == s.boxes[b := s'.boxes[b]]
    ensures ToDo(s') == ToDo(s) - Load(s.threads[t]) + Load(s'.threads[t]) - Items(s.boxes[b]) + Items(s'.boxes[b])
  {
    hide Load, Items, Sum;
    SumUpdate(Loads(s), t, Load(s'.threads[t]));
    assert Loads(s') == Loads(s)[t := Load(s'.threads[t])];
    SumUpdate(Contents(s), b, Items(s'.boxes[b]));
    assert Contents(s') == Contents(s)[b := Items(s'.boxes[b])];
  }

  lemma HelpfulStep(s: Ring, t: nat, coin: bool)
    requires Inv(s) && Helpful(s, t)
    ensures Enabled(s, t) && |Apply(s, Step(t, coin)).boxes| == |Apply(s, Step(t, coin)).threads| && Nearer(s, Apply(s, Step(t, coin)))
  {
    hide Sum, PtrOk, Loads, Contents, Delays, Cell;
    ThreadEnabled(s, t);
    var s', to := Apply(s, Step(t, coin)), Next(|s.threads|, t);
    RingShape(|s.threads|, t);
    assert ThreadOk(s, t) && BoxOk(s, t) && BoxOk(s, to);
    var pc := s.threads[t].pc;
    if pc.Draining? && s.boxes[t].head != s.boxes[t].tail {
      BoxSums(s, s', t, t);
    } else if pc.Bumping? {
      BoxSums(s, s', t, to);
    } else if pc.Storing? {
      BoxSums(s, s', t, to);
    } else {
      assert s'.boxes == s.boxes;
      OwnSums(s, s', t);
      OwnDelay(s, t, coin);
    }
  }

  /** A step that moves no object between inboxes. */
  lemma OwnDelay(s: Ring, t: nat, coin: bool)
    requires Inv(s) && Helpful(s, t) && Enabled(s, t) && !s.threads[t].pc.Bumping? && !s.threads[t].pc.Storing?
    requires s.threads[t].pc.Draining? ==> s.boxes[t].head == s.boxes[t].tail
    ensures var s' := Apply(s, Step(t, coin));
      && |s'.boxes| == |s'.threads| == |s.threads|
      && (Load(s'.threads[t]) < Load(s.threads[t])
          || (Load(s'.threads[t]) == Load(s.threads[t]) && Delays(s')[t] < Delays(s)[t]))
  {
    hide PtrOk, Cell;
    RingShape(|s.threads|, t);
    assert ThreadOk(s, t) && BoxOk(s, t) && BoxOk(s, Next(|s.threads|, t));
    assert ThreadOk(s, Prev(|s.threads|, t));
  }

  // From anywhere to the end.

  /** From every state that a run can reach, and whatever malloc and the random
      choices give from then on, some schedule brings every thread to leave. */
  lemma {:induction false} CanFinish(s: Ring, coins: nat -> bool, k: nat) returns (es: seq<Step>)
    requires Inv(s)
    ensures CanRun(s, es) && AllGone(Run(s, es)) && forall i :: 0 <= i < |es| ==> es[i].coin == coins(k + i)
    decreases ToDo(s), Sum(Delays(s))
  {
    hide Inv, Enabled, Apply, Helpful, Sum, Delays, Loads, Contents;
    InvShape(s);
    if AllGone(s) {
      es := [];
    } else {
      var t := FindHelpful(s);
      var e := Step(t, coins(k));
      HelpfulStep(s, t, e.coin);
      StepInv(s, e);
      var rest := CanFinish(Apply(s, e), coins, k + 1);
      es := [e] + rest;
      RunFirst(s, e, rest);
    }
  }

  lemma InvShape(s: Ring)
    requires Inv(s)
    ensures |s.boxes| == |s.threads|
  {}

  lemma {:induction false} RunFirst(s: Ring, e: Step, es: seq<Step>)
    requires Enabled(s, e.t) && CanRun(Apply(s, e), es)
    ensures CanRun(s, [e] + es) && Run(s, [e] + es) == Run(Apply(s, e), es)
    decreases |es|
  {
    hide Enabled, Apply;
    if es == [] {
      assert [e] + es == [e] && [e][..0] == [];
    } else {
      var before := es[..|es| - 1];
      RunFirst(s, e, before);
      assert ([e] + es)[..|es|] == [e] + before;
    }
  }

  /** The bench cannot lock up: whatever has happened, every thread can still
      leave, and then every allocation has been freed once. */
  lemma NeverLocksUp(n: nat, cap: nat, iters: nat, before: seq<Step>, coins: nat -> bool) returns (es: seq<Step>)
    requires cap > 0 && CanRun(Start(n, cap, iters), before)
    ensures var s := Run(Start(n, cap, iters), before); CanRun(s, es) && AllGone(Run(s, es)) && forall i :: 0 <= i < |es| ==> es[i].coin == coins(i)
  {
    StartInv(n, cap, iters);
    RunInv(Start(n, cap, iters), before);
    es := CanFinish(Run(Start(n, cap, iters), before), coins, 0);
  }

  // With memory and nothing kept, every iteration hands an object over.

  /** Iterations left and objects handed over add up. */
  predicate Handed(s: Ring, iters: nat) {
    forall t :: 0 <= t < |s.threads| ==>
      && s.threads[t].enqueued + s.threads[t].left == iters
      && (s.threads[t].left == 0 <==> s.threads[t].pc == Finishing || Over(s.threads[t].pc))
  }

  lemma {:induction false} HandsOver(n: nat, cap: nat, iters: nat, es: seq<Step>)
    requires cap > 0 && CanRun(Start(n, cap, iters), es) && forall e :: e in es ==> e.coin
    ensures Handed(Run(Start(n, cap, iters), es), iters)
    decreases |es|
  {
    hide Enabled, Apply;
    if es != [] {
      HandsOver(n, cap, iters, es[..|es| - 1]);
      HandStep(Run(Start(n, cap, iters), es[..|es| - 1]), es[|es| - 1], iters);
    }
  }

  lemma HandStep(s: Ring, e: Step, iters: nat)
    requires Handed(s, iters) && Enabled(s, e.t) && e.coin
    ensures Handed(Apply(s, e), iters)
  {
    hide Cell;
    var s' := Apply(s, e);
    forall u | 0 <= u < |s.threads| && u != e.t ensures u < |s'.threads| && s'.threads[u] == s.threads[u] { OnlyOwnThread(s, e, u); }
  }

  /** If malloc never fails and every object is handed on, each thread that has
      left has handed over one object for each iteration. */
  lemma EveryIterationHandsOver(n: nat, cap: nat, iters: nat, es: seq<Step>, t: nat)
    requires cap > 0 && CanRun(Start(n, cap, iters), es) && (forall e :: e in es ==> e.coin) && t < |Run(Start(n, cap, iters), es).threads|
    requires Run(Start(n, cap, iters), es).threads[t].pc == Exited
    ensures Run(Start(n, cap, iters), es).threads[t].enqueued == iters
  {
    hide Run, CanRun;
    HandsOver(n, cap, iters, es);
  }
}
