/** The owner's drain as the loop it is, and rounds of the remote-free
    microbench built from it. */
module RemoteDrain {
  import opened Basics
  import opened RemoteStack

  function Set(bits: seq<bool>): (n: nat)
    ensures n <= |bits|
  {
    if bits == [] then 0 else Set(bits[..|bits| - 1]) + (if bits[|bits| - 1] then 1 else 0)
  }

  lemma {:induction false} SetUpdate(bits: seq<bool>, i: nat, b: bool)
    requires i < |bits|
    ensures Set(bits[i := b]) == Set(bits) - (if bits[i] then 1 else 0) + (if b then 1 else 0)
  {
    var n := |bits| - 1;
    if i < n {
      assert bits[i := b][..n] == bits[..n][i := b];
      SetUpdate(bits[..n], i, b);
    } else {
      assert bits[i := b][..n] == bits[..n];
    }
  }

  lemma {:induction false} SetAll(bits: seq<bool>)
    ensures Set(bits) == 0 <==> forall i :: 0 <= i < |bits| ==> !bits[i]
    ensures Set(bits) == |bits| <==> forall i :: 0 <= i < |bits| ==> bits[i]
  {
    if bits != [] {
      var n := |bits| - 1;
      SetAll(bits[..n]);
      assert forall i :: 0 <= i < n ==> bits[..n][i] == bits[i];
    }
  }

  predicate Remote(e: Event) { e.Claim? || e.Load? || e.Link? || e.Swing? }

  /** What the owner relies on while other frees run. */
  ghost predicate Quiet(s: State, s': State) {
    && |s'.bits| == |s.bits| && |s'.heads| == |s.heads|
    && s'.owner == s.owner && s'.detached == s.detached && s'.merged == s.merged && s'.drains == s.drains
  }

  lemma RemoteQuiet(s: State, e: Event)
    requires Enabled(s, e) && Remote(e)
    ensures Quiet(s, Apply(s, e))
  {}

  /** Nobody but the owner holds a slot, and the first `k` stacks are empty. */
  ghost predicate Emptied(s: State, k: nat) {
    s.frees == map[] && k <= |s.stacks| && forall j :: 0 <= j < k ==> s.stacks[j] == []
  }

  lemma EmptiedIsClear(s: State)
    requires Inv(s) && Emptied(s, |s.stacks|) && s.detached == []
    ensures forall i :: 0 <= i < |s.bits| ==> !s.bits[i]
  {
    forall i | 0 <= i < |s.bits| ensures !s.bits[i] { assert SlotOk(s, i); }
  }

  class Stripes {
    var w: State

    constructor (slots: nat, stripes: nat)
      ensures Inv(w) && w == Init(slots, stripes)
    {
      w := Init(slots, stripes);
      new;
      InitInv(slots, stripes);
    }

    method Do(e: Event)
      requires Inv(w) && Enabled(w, e)
      modifies this
      ensures Inv(w) && w == Apply(old(w), e)
    {
      StepInv(w, e);
      w := Apply(w, e);
    }

    /** Other threads' frees, unless there are none. */
    method Interfere(alone: bool)
      requires Inv(w)
      modifies this
      ensures Inv(w) && Quiet(old(w), w) && (alone ==> w == old(w))
    {
      var steps: nat := *;
      while steps > 0 && !alone
        invariant Inv(w) && Quiet(old(w), w) && (alone ==> w == old(w))
      {
        var e: Event := *;
        if Remote(e) && Enabled(w, e) {
          RemoteQuiet(w, e);
          Do(e);
        }
        steps := steps - 1;
      }
    }

    /** Takes the node at hand: saves its link, clears its bit, moves on. */
    method DrainNode(alone: bool)
      requires Inv(w) && w.owner.Visiting? && w.owner.head != Null(w)
      modifies this
      ensures Inv(w) && w.owner.Visiting? && w.owner.stripe == old(w).owner.stripe && |w.detached| < |old(w).detached|
      ensures |w.bits| == |old(w).bits| && |w.heads| == |old(w).heads| && w.merged == old(w).merged + 1
      ensures Sum(w.drains) == Sum(old(w).drains) + 1
      ensures alone ==> w.stacks == old(w).stacks && w.frees == old(w).frees && Set(w.bits) + 1 == Set(old(w).bits)
    {
      hide Inv;
      HeadIsFirst(w);
      Do(Visit);
      Interfere(alone);
      HeadIsSet(w);
      SetUpdate(w.bits, w.owner.head, false);
      SumUpdate(w.drains, w.owner.head, w.drains[w.owner.head] + 1);
      Do(Clear);
      Interfere(alone);
    }

    /** Detaches every stripe in turn and walks what it detached. The walk ends
        whatever other threads do, and if they do nothing it takes every claimed
        slot and leaves no bit set. */
    method DrainStacks(alone: bool) returns (drained: nat)
      requires Inv(w) && w.owner == Resting && (alone ==> w.frees == map[])
      modifies this
      ensures Inv(w) && w.owner == Resting && |w.bits| == |old(w).bits|
      ensures Sum(w.drains) == Sum(old(w).drains) + drained
      ensures alone ==> drained == Set(old(w).bits) && Set(w.bits) == 0
    {
      hide Inv, Emptied;
      RestingHoldsNothing(w);
      Do(Start);
      NothingEmptied(w);
      while w.owner.Exchanging?
        invariant Inv(w) && |w.bits| == |old(w).bits| && |w.heads| == |w.stacks| == |old(w).heads|
        invariant w.owner == AtStripe(w, if w.owner.Exchanging? then w.owner.stripe else |w.heads|)
        invariant w.detached == [] && Sum(w.drains) == Sum(old(w).drains) + w.merged
        invariant alone ==> Emptied(w, if w.owner.Exchanging? then w.owner.stripe else |w.heads|) && Set(w.bits) + w.merged == Set(old(w).bits)
        decreases if w.owner.Exchanging? then |w.heads| - w.owner.stripe else 0
      {
        DrainStripe(alone);
      }
      drained := w.merged;
      if alone {
        EmptiedIsClear(w);
        SetAll(w.bits);
      }
    }

    method DrainStripe(alone: bool)
      requires Inv(w) && w.owner.Exchanging? && w.owner.stripe < |w.heads| && w.detached == []
      requires alone ==> Emptied(w, w.owner.stripe)
      modifies this
      ensures Inv(w) && |w.bits| == |old(w).bits| && |w.heads| == |w.stacks| == |old(w).heads|
      ensures w.owner == AtStripe(w, old(w).owner.stripe + 1) && w.detached == []
      ensures Sum(w.drains) + old(w).merged == Sum(old(w).drains) + w.merged
      ensures alone ==> Emptied(w, old(w).owner.stripe + 1) && Set(w.bits) + w.merged == Set(old(w).bits) + old(w).merged
    {
      hide Inv, Emptied;
      ghost var k := w.owner.stripe;
      Interfere(alone);
      OneMoreEmptied(w, k);
      Do(Exchange);
      while w.owner.head != Null(w)
        invariant Inv(w) && w.owner.Visiting? && w.owner.stripe == k && |w.bits| == |old(w).bits| && |w.heads| == |old(w).heads|
        invariant Sum(w.drains) + old(w).merged == Sum(old(w).drains) + w.merged
        invariant alone ==> Emptied(w, k + 1) && Set(w.bits) + w.merged == Set(old(w).bits) + old(w).merged
        decreases |w.detached|
      {
        ghost var before := w;
        DrainNode(alone);
        if alone { SameEmptied(before, w, k + 1); }
      }
      NothingLeft(w);
      ghost var before := w;
      Do(Visit);
      if alone { SameEmptied(before, w, k + 1); }
    }
  }

  lemma HeadIsFirst(s: State)
    requires Inv(s) && s.owner.Visiting? && s.owner.head != Null(s)
    ensures Enabled(s, Visit) && s.detached != [] && s.detached[0] == s.owner.head
  {}

  lemma HeadIsSet(s: State)
    requires Inv(s) && s.owner.Clearing?
    ensures Sized(s) && s.owner.head < |s.bits| && s.bits[s.owner.head] && Enabled(s, Clear) && s.detached != []
  {
    assert s.detached[0] in s.detached;
    assert SlotOk(s, s.owner.head);
  }

  lemma NothingLeft(s: State)
    requires Inv(s) && s.owner.Visiting? && s.owner.head == Null(s)
    ensures Enabled(s, Visit) && s.detached == [] && |s.stacks| == |s.heads|
  {}

  lemma RestingHoldsNothing(s: State)
    requires Inv(s) && s.owner == Resting
    ensures Enabled(s, Start) && s.detached == [] && |s.stacks| == |s.heads|
  {}

  lemma NothingEmptied(s: State)
    ensures s.frees == map[] ==> Emptied(s, 0)
  {}

  lemma SameEmptied(s: State, s': State, k: nat)
    requires Emptied(s, k) && s'.stacks == s.stacks && s'.frees == s.frees
    ensures Emptied(s', k)
  {}

  lemma OneMoreEmptied(s: State, k: nat)
    requires Inv(s) && s.owner == Exchanging(k) && k < |s.heads|
    ensures Enabled(s, Exchange) && (Emptied(s, k) ==> Emptied(Apply(s, Exchange), k + 1))
    ensures |s.stacks| == |s.heads|
  {}

  // A round of the microbench: every worker frees the slots of its slice, all
  // meet at the barrier, then the owner drains alone.

  /** Worker `t` of `threads` owns slot `i`: slices of `per` slots, the last one
      running to the end. */
  predicate Owns(per: nat, slots: nat, threads: nat, t: nat, i: nat) {
    t < threads && t * per <= i < if t + 1 == threads then slots else (t + 1) * per
  }

  /** The slices cover every slot once, even when the division leaves a rest. */
  lemma SlicesPartition(per: nat, slots: nat, threads: nat, i: nat) returns (t: nat)
    requires threads > 0 && i < slots
    ensures Owns(per, slots, threads, t, i)
    ensures forall u :: Owns(per, slots, threads, u, i) ==> u == t
  {
    t := threads - 1;
    if i < (threads - 1) * per {
      t := i / per;
      SliceBounds(i, per, threads);
    }
    forall u | Owns(per, slots, threads, u, i) ensures u == t { SliceUnique(per, threads, t, u, i); }
  }

  lemma SliceBounds(i: nat, per: nat, threads: nat)
    requires threads > 0 && i < (threads - 1) * per
    ensures per > 0 && i / per < threads - 1 && (i / per) * per <= i < (i / per + 1) * per
  {
    assert per > 0;
    var q := i / per;
    assert i == q * per + i % per;
    if q >= threads - 1 {
      assert q * per >= (threads - 1) * per by { Monotone(threads - 1, q, per); }
    }
  }

  lemma Monotone(a: nat, b: nat, k: nat)
    requires a <= b
    ensures a * k <= b * k
  {}

  lemma SliceUnique(per: nat, threads: nat, t: nat, u: nat, i: nat)
    requires t < threads && u < threads
    requires t * per <= i && (t + 1 < threads ==> i < (t + 1) * per)
    requires u * per <= i && (u + 1 < threads ==> i < (u + 1) * per)
    ensures t == u
  {
    if t < u {
      Monotone(t + 1, u, per);
    } else if u < t {
      Monotone(u + 1, t, per);
    }
  }

  function ClaimsOf(es: seq<Event>, i: nat): nat {
    if es == [] then 0
    else ClaimsOf(es[..|es| - 1], i) + (if es[|es| - 1].Claim? && es[|es| - 1].slot == i then 1 else 0)
  }

  lemma {:induction false} ClaimsOfPrefix(es: seq<Event>, i: nat)
    requires es != []
    ensures ClaimsOf(es[..|es| - 1], i) <= ClaimsOf(es, i)
  {}

  /** While only workers run, a bit is set exactly when its slot was claimed,
      and a slot claimed at most once never meets a set bit. */
  lemma {:induction false} WorkersOnly(s: State, es: seq<Event>)
    requires Inv(s) && CanRun(s, es) && s.owner == Resting
    requires forall i :: 0 <= i < |s.bits| ==> !s.bits[i]
    requires forall e :: e in es ==> Remote(e)
    requires forall i: nat :: ClaimsOf(es, i) <= 1
    ensures var s' := Run(s, es);
      && s'.failed == s.failed && s'.owner == Resting && |s'.bits| == |s.bits|
      && forall i :: 0 <= i < |s.bits| ==> (s'.bits[i] <==> ClaimsOf(es, i) == 1)
    decreases |es|
  {
    if es != [] {
      var init, e := es[..|es| - 1], es[|es| - 1];
      forall i: nat ensures ClaimsOf(init, i) <= 1 { ClaimsOfPrefix(es, i); }
      WorkersOnly(s, init);
      if e.Claim? { assert ClaimsOf(es, e.slot) <= 1; }
      WorkerStep(Run(s, init), e);
    }
  }

  lemma WorkerStep(s: State, e: Event)
    requires Enabled(s, e) && Remote(e)
    ensures var s' := Apply(s, e);
      && s'.owner == s.owner && |s'.bits| == |s.bits|
      && (e.Claim? && s.bits[e.slot] ==> s'.failed == s.failed + 1)
      && (!(e.Claim? && s.bits[e.slot]) ==> s'.failed == s.failed)
      && forall i :: 0 <= i < |s.bits| ==> (s'.bits[i] <==> s.bits[i] || (e.Claim? && e.slot == i))
  {}

  // The microbench counts a claim that fails, and pushes the node all the same.

  function ApplyPushing(s: State, e: Event): State
    requires Enabled(s, e)
  {
    if e.Claim? && s.bits[e.slot] then s.(failed := s.failed + 1, frees := s.frees[e.tid := Loading(e.slot, e.stripe)])
    else Apply(s, e)
  }

  predicate CanRunPushing(s: State, es: seq<Event>)
    decreases |es|, 0
  {
    es == [] || (CanRunPushing(s, es[..|es| - 1]) && Enabled(RunPushing(s, es[..|es| - 1]), es[|es| - 1]))
  }

  function RunPushing(s: State, es: seq<Event>): State
    requires CanRunPushing(s, es)
    decreases |es|, 1
  {
    if es == [] then s else ApplyPushing(RunPushing(s, es[..|es| - 1]), es[|es| - 1])
  }

  /** Where each slot is claimed at most once that makes no difference: the runs
      of the microbench are runs of the frees that stop when a claim fails. */
  lemma {:induction false} PushingIsNeverSeen(s: State, es: seq<Event>)
    requires Inv(s) && CanRunPushing(s, es) && s.owner == Resting
    requires forall i :: 0 <= i < |s.bits| ==> !s.bits[i]
    requires forall e :: e in es ==> Remote(e)
    requires forall i: nat :: ClaimsOf(es, i) <= 1
    ensures CanRun(s, es) && Run(s, es) == RunPushing(s, es)
    decreases |es|
  {
    if es != [] {
      var before, e := es[..|es| - 1], es[|es| - 1];
      forall i: nat ensures ClaimsOf(before, i) <= 1 { ClaimsOfPrefix(es, i); }
      PushingIsNeverSeen(s, before);
      WorkersOnly(s, before);
      if e.Claim? { assert ClaimsOf(es, e.slot) <= 1; }
    }
  }

  /** Where a slot is claimed twice it does: the microbench counts the failure,
      pushes the slot again, and its link leads back to itself, so that a walk
      from the head never comes to an end. */
  lemma PushingTwiceLoops() returns (es: seq<Event>)
    ensures CanRunPushing(Init(1, 1), es)
    ensures var s := RunPushing(Init(1, 1), es); s.failed == 1 && s.frees == map[] && |s.heads| == 1 && |s.links| == 1 && s.heads[0] == 0 && s.links[0] == 0
  {
    hide PushesTo, ApplyPushing;
    es := [];
    PushesNothing();
    es := PushOnce(es, false);
    es := PushOnce(es, true);
    PushesEnds(es);
  }

  /** One slot and one stripe; the slot has been pushed once, or not yet, and
      thread 1, or thread 0, is inside a push of it. */
  function Inside(again: bool, f: Free, link: nat): State {
    State([true], [link], [if again then 0 else 1], map[if again then 1 else 0 := f], Resting, 0, if again then 1 else 0,
          [if again then [0] else []], [], [if again then On(0) else With(0)], [1], [0])
  }

  function Between(pushes: nat, link: nat): State {
    State([true], [link], [0], map[], Resting, 0, if pushes == 2 then 1 else 0, [if pushes == 2 then [0, 0] else [0]], [], [On(0)], [1], [0])
  }

  ghost predicate PushesTo(es: seq<Event>, s: State) {
    CanRunPushing(Init(1, 1), es) && RunPushing(Init(1, 1), es) == s
  }

  lemma PushesNothing()
    ensures PushesTo([], Init(1, 1))
  {}

  lemma PushesEnds(es: seq<Event>)
    requires PushesTo(es, Between(2, 0))
    ensures CanRunPushing(Init(1, 1), es) && RunPushing(Init(1, 1), es) == Between(2, 0)
  {}

  lemma PushOnce(es: seq<Event>, again: bool) returns (longer: seq<Event>)
    requires PushesTo(es, if again then Between(1, 1) else Init(1, 1))
    ensures PushesTo(longer, if again then Between(2, 0) else Between(1, 1))
  {
    hide PushesTo;
    var t, seen := if again then 1 else 0, if again then 0 else 1;
    var s0 := if again then Between(1, 1) else Init(1, 1);
    var s1, s2, s3 := Inside(again, Loading(0, 0), 1), Inside(again, Linking(0, 0, seen), 1), Inside(again, Swinging(0, 0, seen), seen);
    longer := ThenPush(es, s0, Claim(t, 0, 0), s1);
    longer := ThenPush(longer, s1, Load(t), s2);
    longer := ThenPush(longer, s2, Link(t), s3);
    Swung(again);
    longer := ThenPush(longer, s3, Swing(t, false), if again then Between(2, 0) else Between(1, 1));
  }

  lemma Swung(again: bool)
    ensures var t, seen := if again then 1 else 0, if again then 0 else 1; var s := Inside(again, Swinging(0, 0, seen), seen);
      Enabled(s, Swing(t, false)) && ApplyPushing(s, Swing(t, false)) == if again then Between(2, 0) else Between(1, 1)
  {
    var t, seen := if again then 1 else 0, if again then 0 else 1;
    var s, s' := Inside(again, Swinging(0, 0, seen), seen), if again then Between(2, 0) else Between(1, 1);
    assert s.frees - {t} == map[];
    assert s.heads[0 := 0] == s'.heads && s.place[0 := On(0)] == s'.place;
    assert s.stacks[0] == if again then [0] else [];
    assert [0] + s.stacks[0] == s'.stacks[0];
    assert s.stacks[0 := [0] + s.stacks[0]] == s'.stacks;
  }

  lemma ThenPush(es: seq<Event>, s: State, e: Event, s': State) returns (longer: seq<Event>)
    requires PushesTo(es, s) && Enabled(s, e) && ApplyPushing(s, e) == s'
    ensures PushesTo(longer, s')
  {
    longer := es + [e];
    assert longer[..|es|] == es;
  }

  /** A round: if the workers claim each slot once, in whatever interleaving,
      and all finish, then no claim fails and the owner drains every slot. */
  method Round(s: Stripes, ghost es: seq<Event>, after: State) returns (drained: nat)
    requires Inv(s.w) && s.w.owner == Resting && Set(s.w.bits) == 0
    requires CanRun(s.w, es) && Run(s.w, es) == after && after.frees == map[]
    requires forall e :: e in es ==> Remote(e)
    requires forall i: nat :: ClaimsOf(es, i) == if i < |s.w.bits| then 1 else 0
    modifies s
    ensures Inv(s.w) && s.w.owner == Resting && Set(s.w.bits) == 0
    ensures drained == |s.w.bits| == |old(s.w).bits| && after.failed == old(s.w).failed
  {
    SetAll(s.w.bits);
    WorkersOnly(s.w, es);
    RunInv(s.w, es);
    SetAll(after.bits);
    s.w := after;
    drained := s.DrainStacks(true);
  }
}
