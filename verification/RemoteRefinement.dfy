/** The word-level remote frees of one page implement the atomic steps of the
    protocol: claiming a bit is the protocol's claim, the swing that succeeds is
    its publish, the exchange of a stripe is its drain, and every other access to
    a word is invisible. */
module RemoteRefinement {
  import opened Basics
  import P = ReadyProtocol
  import W = RemoteStack

  /** One page of the protocol state `r` together with its words `w`. `mine[i]`
      is Free or Live for a slot that no remote free has claimed. */
  datatype Joint = Joint(w: W.State, mine: seq<P.Slot>, r: P.State)

  /** A step of the words, an allocation or a free of the owner, the next
      operation of the note that a remote free makes before it publishes, or
      anything that happens to the lists, the ready stack and other pages. */
  datatype Step = Word(e: W.Event) | Alloc(slot: nat) | LocalFree(slot: nat) | Note(tid: P.Tid) | Elsewhere(event: P.Event)

  /** The page as the protocol sees it. A slot that the owner has detached counts
      as free already. */
  function SlotAt(x: Joint, i: nat): P.Slot
    requires i < |x.w.place| && i < |x.mine|
  {
    match x.w.place[i]
    case Nowhere => x.mine[i]
    case With(t) => P.Slot.Claimed(t)
    case On(k) => P.Slot.Published(k)
    case Detached => P.Slot.Free
  }

  function Slots(x: Joint): (r: seq<P.Slot>)
    requires |x.w.place| == |x.mine|
    ensures |r| == |x.mine|
    ensures forall i :: 0 <= i < |r| ==> r[i] == SlotAt(x, i)
  {
    seq(|x.mine|, i requires 0 <= i < |x.mine| => SlotAt(x, i))
  }

  /** The words and the protocol state describe the same page. */
  ghost predicate Reflects(x: Joint, p: P.PageId) {
    && W.Inv(x.w) && |x.mine| == |x.w.bits| && |x.w.heads| == P.STRIPES
    && p in x.r.pages && x.r.pages[p].slots == Slots(x)
    && (forall i :: 0 <= i < |x.mine| ==> x.mine[i].Free? || (x.mine[i].Live? && x.w.place[i] == W.Nowhere))
    && (forall t :: t in x.w.frees ==> t in x.r.calls && x.r.calls[t].page == p && x.r.calls[t].slot == x.w.frees[t].slot
                                       && (!x.w.frees[t].Loading? ==> x.r.calls[t].pc == P.AtPublish))
    && (forall t :: t in x.r.calls && x.r.calls[t].page == p ==> t in x.w.frees)
  }

  predicate Claims(x: Joint, e: W.Event) {
    e.Claim? && W.Enabled(x.w, e) && !x.w.bits[e.slot]
  }

  predicate Publishes(x: Joint, e: W.Event) {
    e.Swing? && W.Enabled(x.w, e) && x.w.heads[x.w.frees[e.tid].stripe] == x.w.frees[e.tid].seen && !e.spurious
  }

  /** What the program's order demands: a thread makes one free at a time, of a
      slot that is live, and notes it before it pushes it; the owner allocates
      and frees when it is not draining. */
  predicate Enabled(x: Joint, p: P.PageId, s: Step) {
    p in x.r.pages && |x.mine| == |x.w.place| &&
    match s
    case Word(e) => W.Enabled(x.w, e)
                    && (Claims(x, e) ==> e.tid !in x.r.calls && e.slot < |x.mine| && x.mine[e.slot].Live?)
                    && (e.Load? ==> e.tid in x.r.calls && x.r.calls[e.tid].pc == P.AtPublish)
    case Alloc(i) => P.CanAlloc(x.r, p, i) && x.w.owner == W.Resting && i < |x.mine|
    case LocalFree(i) => P.CanLocalFree(x.r, p, i) && x.w.owner == W.Resting && i < |x.mine|
    case Note(t) => t in x.w.frees && P.Enabled(x.r, P.Event.Note(t))
    case Elsewhere(e) => P.Enabled(x.r, e) && Apart(x.r, p, e)
  }

  /** The event is none of the page's own slot events, and not its end. */
  predicate Apart(r: P.State, p: P.PageId, e: P.Event) {
    match e
    case Alloc(q, _) => q != p
    case LocalFree(q, _) => q != p
    case Drain(q, _) => q != p
    case Reclaim => r.hold.Detached? && r.hold.page != p
    case Claim(_, q, _) => q != p
    case Note(t) => t in r.calls && r.calls[t].page != p
    case Publish(t, _) => t in r.calls && r.calls[t].page != p
    case _ => true
  }

  /** The protocol's event that the step is, if any. */
  function Seen(x: Joint, p: P.PageId, s: Step): Option<P.Event>
    requires Enabled(x, p, s)
  {
    match s
    case Word(e) =>
      if Claims(x, e) then Some(P.Event.Claim(e.tid, p, e.slot))
      else if Publishes(x, e) then Some(P.Event.Publish(e.tid, x.w.frees[e.tid].stripe))
      else if e.Exchange? then Some(P.Event.Drain(p, x.w.owner.stripe))
      else None
    case Alloc(i) => Some(P.Event.Alloc(p, i))
    case LocalFree(i) => Some(P.Event.LocalFree(p, i))
    case Note(t) => Some(P.Event.Note(t))
    case Elsewhere(e) => Some(e)
  }

  function Words(x: Joint, s: Step): W.State
    requires s.Word? ==> W.Enabled(x.w, s.e)
  {
    if s.Word? then W.Apply(x.w, s.e) else x.w
  }

  function Mine(x: Joint, s: Step): (r: seq<P.Slot>)
    ensures |r| == |x.mine|
  {
    match s
    case Word(e) => if Claims(x, e) && e.slot < |x.mine| then x.mine[e.slot := P.Slot.Free] else x.mine
    case Alloc(i) => if i < |x.mine| then x.mine[i := P.Slot.Live] else x.mine
    case LocalFree(i) => if i < |x.mine| then x.mine[i := P.Slot.Free] else x.mine
    case _ => x.mine
  }

  // Each visible step is the protocol's.

  lemma ClaimIsClaim(x: Joint, p: P.PageId, e: W.Event)
    requires Reflects(x, p) && Enabled(x, p, Word(e)) && Claims(x, e)
    ensures P.Enabled(x.r, P.Event.Claim(e.tid, p, e.slot))
    ensures Reflects(Joint(W.Apply(x.w, e), Mine(x, Word(e)), P.Apply(x.r, P.Event.Claim(e.tid, p, e.slot))), p)
  {
    hide W.StackOk, W.OwnerOk;
    W.StepInv(x.w, e);
    assert W.SlotOk(x.w, e.slot);
    var x' := Joint(W.Apply(x.w, e), Mine(x, Word(e)), P.Apply(x.r, P.Event.Claim(e.tid, p, e.slot)));
    assert x'.r.pages[p].slots == Slots(x');
  }

  lemma SwingIsPublish(x: Joint, p: P.PageId, e: W.Event)
    requires Reflects(x, p) && Publishes(x, e)
    ensures P.Enabled(x.r, P.Event.Publish(e.tid, x.w.frees[e.tid].stripe))
    ensures Reflects(Joint(W.Apply(x.w, e), x.mine, P.Apply(x.r, P.Event.Publish(e.tid, x.w.frees[e.tid].stripe))), p)
  {
    hide W.StackOk, W.OwnerOk, W.SlotOk;
    W.StepInv(x.w, e);
    assert W.FreeOk(x.w, e.tid);
    var x' := Joint(W.Apply(x.w, e), x.mine, P.Apply(x.r, P.Event.Publish(e.tid, x.w.frees[e.tid].stripe)));
    assert x'.r.pages[p].slots == Slots(x');
  }

  lemma ExchangeIsDrain(x: Joint, p: P.PageId)
    requires Reflects(x, p) && W.Enabled(x.w, W.Exchange)
    ensures P.Enabled(x.r, P.Event.Drain(p, x.w.owner.stripe))
    ensures Reflects(Joint(W.Apply(x.w, W.Exchange), x.mine, P.Apply(x.r, P.Event.Drain(p, x.w.owner.stripe))), p)
  {
    hide W.StackOk, W.OwnerOk, W.SlotOk;
    W.StepInv(x.w, W.Exchange);
    var x' := Joint(W.Apply(x.w, W.Exchange), x.mine, P.Apply(x.r, P.Event.Drain(p, x.w.owner.stripe)));
    assert x'.r.pages[p].slots == Slots(x');
  }

  /** Any other access to a word changes nothing that the protocol sees. */
  lemma OtherWordsAreInvisible(x: Joint, p: P.PageId, e: W.Event)
    requires Reflects(x, p) && Enabled(x, p, Word(e)) && !Claims(x, e) && !Publishes(x, e) && !e.Exchange?
    ensures Reflects(Joint(W.Apply(x.w, e), x.mine, x.r), p)
  {
    hide W.StackOk, W.SlotOk, W.OwnerOk;
    W.StepInv(x.w, e);
    if e.Clear? { ClearedWasDetached(x.w); }
    var x' := Joint(W.Apply(x.w, e), x.mine, x.r);
    assert Slots(x') == Slots(x);
  }

  lemma ClearedWasDetached(s: W.State)
    requires W.Inv(s) && s.owner.Clearing?
    ensures s.owner.head < |s.place| && s.place[s.owner.head] == W.Detached
  {
    assert s.detached[0] in s.detached;
  }

  lemma OwnersStep(x: Joint, p: P.PageId, s: Step)
    requires Reflects(x, p) && Enabled(x, p, s) && !s.Word?
    ensures Reflects(Joint(x.w, Mine(x, s), P.Apply(x.r, Seen(x, p, s).value)), p)
  {
    hide W.Inv;
    var x' := Joint(x.w, Mine(x, s), P.Apply(x.r, Seen(x, p, s).value));
    if s.Note? {
      NoteKeepsSlots(x.r, s.tid, p);
    } else if s.Elsewhere? {
      ApartKeepsPage(x.r, p, s.event);
    } else {
      RestingSlotIsMine(x, s.slot);
    }
    assert x'.r.pages[p].slots == Slots(x');
  }

  lemma NoteKeepsSlots(r: P.State, t: P.Tid, p: P.PageId)
    requires p in r.pages && P.Enabled(r, P.Event.Note(t))
    ensures var r' := P.Apply(r, P.Event.Note(t));
      && p in r'.pages && r'.pages[p].slots == r.pages[p].slots && r'.calls.Keys == r.calls.Keys
      && (forall u :: u in r.calls ==> r'.calls[u].page == r.calls[u].page && r'.calls[u].slot == r.calls[u].slot)
      && (forall u :: u in r.calls && u != t ==> r'.calls[u] == r.calls[u])
  {}

  lemma ApartKeepsPage(r: P.State, p: P.PageId, e: P.Event)
    requires p in r.pages && P.Enabled(r, e) && Apart(r, p, e)
    ensures var r' := P.Apply(r, e);
      && p in r'.pages && r'.pages[p].slots == r.pages[p].slots
      && (forall t :: t in r.calls && r.calls[t].page == p ==> t in r'.calls && r'.calls[t] == r.calls[t])
      && (forall t :: t in r'.calls && r'.calls[t].page == p ==> t in r.calls && r.calls[t].page == p)
  {}

  lemma RestingSlotIsMine(x: Joint, i: nat)
    requires W.Inv(x.w) && x.w.owner == W.Resting && |x.mine| == |x.w.bits| && i < |x.mine|
    ensures SlotAt(x, i).Free? || SlotAt(x, i).Live? ==> x.w.place[i] == W.Nowhere
  {
    assert W.SlotOk(x.w, i);
  }

  /** Every step of the words and the owner is a step of the protocol, enabled
      there, or leaves the protocol state as it is. */
  lemma StepIsSeen(x: Joint, p: P.PageId, s: Step)
    requires Reflects(x, p) && Enabled(x, p, s)
    ensures Seen(x, p, s).Some? ==> P.Enabled(x.r, Seen(x, p, s).value)
    ensures Reflects(Joint(Words(x, s), Mine(x, s), if Seen(x, p, s).Some? then P.Apply(x.r, Seen(x, p, s).value) else x.r), p)
  {
    hide Reflects, P.Apply, W.Apply;
    match s {
      case Word(e) =>
        if Claims(x, e) {
          ClaimIsClaim(x, p, e);
        } else if Publishes(x, e) {
          SwingIsPublish(x, p, e);
        } else if e.Exchange? {
          ExchangeIsDrain(x, p);
        } else {
          OtherWordsAreInvisible(x, p, e);
        }
      case _ => OwnersStep(x, p, s);
    }
  }

  // Whole runs.

  function Next(x: Joint, p: P.PageId, s: Step): Joint
    requires Reflects(x, p) && Enabled(x, p, s)
    ensures Reflects(Next(x, p, s), p)
  {
    StepIsSeen(x, p, s);
    Joint(Words(x, s), Mine(x, s), if Seen(x, p, s).Some? then P.Apply(x.r, Seen(x, p, s).value) else x.r)
  }

  predicate CanRun(x: Joint, p: P.PageId, steps: seq<Step>)
    requires Reflects(x, p)
    decreases |steps|, 0
  {
    steps == [] || (CanRun(x, p, steps[..|steps| - 1]) && Enabled(Run(x, p, steps[..|steps| - 1]), p, steps[|steps| - 1]))
  }

  function Run(x: Joint, p: P.PageId, steps: seq<Step>): (r: Joint)
    requires Reflects(x, p) && CanRun(x, p, steps)
    ensures Reflects(r, p)
    decreases |steps|, 1
  {
    if steps == [] then x else Next(Run(x, p, steps[..|steps| - 1]), p, steps[|steps| - 1])
  }

  /** What the protocol sees of the run. */
  function Trace(x: Joint, p: P.PageId, steps: seq<Step>): seq<P.Event>
    requires Reflects(x, p) && CanRun(x, p, steps)
    decreases |steps|
  {
    if steps == [] then []
    else
      var last := Seen(Run(x, p, steps[..|steps| - 1]), p, steps[|steps| - 1]);
      Trace(x, p, steps[..|steps| - 1]) + (if last.Some? then [last.value] else [])
  }

  /** Every interleaving of the words is a run of the protocol: whatever holds of
      all its runs holds of the program's memory. */
  lemma {:induction false} WordsRefineProtocol(x: Joint, p: P.PageId, steps: seq<Step>)
    requires Reflects(x, p) && CanRun(x, p, steps)
    ensures P.CanRun(x.r, Trace(x, p, steps)) && P.Run(x.r, Trace(x, p, steps)) == Run(x, p, steps).r
    decreases |steps|
  {
    hide Reflects, Enabled, Seen, P.Apply, P.Enabled, Next, P.CanRun, P.Run;
    if steps == [] {
      NoEvents(x.r);
    } else {
      var before, s := steps[..|steps| - 1], steps[|steps| - 1];
      WordsRefineProtocol(x, p, before);
      NextIsSeen(Run(x, p, before), p, s);
      var last := Seen(Run(x, p, before), p, s);
      if last.Some? {
        OneMoreEvent(x.r, Trace(x, p, before), last.value);
      } else {
        assert Trace(x, p, steps) == Trace(x, p, before);
      }
    }
  }

  lemma NextIsSeen(x: Joint, p: P.PageId, s: Step)
    requires Reflects(x, p) && Enabled(x, p, s)
    ensures Seen(x, p, s).Some? ==> P.Enabled(x.r, Seen(x, p, s).value)
    ensures Next(x, p, s).r == if Seen(x, p, s).Some? then P.Apply(x.r, Seen(x, p, s).value) else x.r
  {
    hide Reflects, Enabled, Seen, P.Apply, P.Enabled;
    StepIsSeen(x, p, s);
  }

  lemma NoEvents(r: P.State)
    ensures P.CanRun(r, []) && P.Run(r, []) == r
  {}

  lemma OneMoreEvent(r: P.State, es: seq<P.Event>, e: P.Event)
    requires P.CanRun(r, es) && P.Enabled(P.Run(r, es), e)
    ensures P.CanRun(r, es + [e]) && P.Run(r, es + [e]) == P.Apply(P.Run(r, es), e)
  {
    hide P.Apply, P.Enabled;
    assert (es + [e])[..|es|] == es;
  }

  // And the other way: what the protocol can do to the page, the words can.

  /** Every event that the protocol enables is a step here: a claim or another
      owner's step at once, an allocation or a local free when the owner is not
      draining. Publishes and drains take several words, see below. */
  lemma EventIsPossible(x: Joint, p: P.PageId, e: P.Event, k: nat) returns (s: Step)
    requires Reflects(x, p) && P.Enabled(x.r, e) && k < P.STRIPES
    requires !(e.Drain? && e.page == p) && !(e.Reclaim? && x.r.hold.page == p) && !(e.Publish? && x.r.calls[e.tid].page == p)
    requires (e.Alloc? || e.LocalFree?) && e.page == p ==> x.w.owner == W.Resting
    ensures Enabled(x, p, s) && Seen(x, p, s) == Some(e)
  {
    hide W.StackOk, W.OwnerOk;
    if e.Claim? && e.page == p {
      assert W.SlotOk(x.w, e.slot);
      assert Slots(x)[e.slot].Live?;
      s := Word(W.Claim(e.tid, e.slot, k));
    } else if e.Note? && x.r.calls[e.tid].page == p {
      s := Note(e.tid);
    } else if e.Alloc? && e.page == p {
      s := Alloc(e.slot);
    } else if e.LocalFree? && e.page == p {
      s := LocalFree(e.slot);
    } else {
      s := Elsewhere(e);
    }
  }

  /** The owner's walk can always go on. */
  lemma OwnerGoesOn(x: Joint, p: P.PageId) returns (e: W.Event)
    requires Reflects(x, p)
    ensures Enabled(x, p, Word(e)) && (e == W.Start || e == W.Exchange || e == W.Visit || e == W.Clear)
    ensures e == W.Start <==> x.w.owner == W.Resting
  {
    hide W.StackOk, W.SlotOk;
    e := match x.w.owner case Resting => W.Start case Exchanging(_) => W.Exchange case Visiting(_, _) => W.Visit case Clearing(_, _, _) => W.Clear;
  }

  lemma {:induction false} RunFirst(x: Joint, p: P.PageId, s: Step, steps: seq<Step>)
    requires Reflects(x, p) && Enabled(x, p, s) && CanRun(Next(x, p, s), p, steps)
    ensures CanRun(x, p, [s] + steps) && Run(x, p, [s] + steps) == Run(Next(x, p, s), p, steps)
    ensures Trace(x, p, [s] + steps) == (if Seen(x, p, s).Some? then [Seen(x, p, s).value] else []) + Trace(Next(x, p, s), p, steps)
    decreases |steps|
  {
    hide Reflects, Enabled, Next, Seen;
    if steps == [] {
      assert [s] + steps == [s] && [s][..0] == [];
    } else {
      var before := steps[..|steps| - 1];
      RunFirst(x, p, s, before);
      assert ([s] + steps)[..|steps|] == [s] + before;
    }
  }

  /** Once it has been noted, a remote free that runs alone takes at most four
      steps, and what the protocol sees of them is its publish. */
  lemma {:induction false} PublishesAlone(x: Joint, p: P.PageId, t: P.Tid) returns (steps: seq<Step>)
    requires Reflects(x, p) && t in x.w.frees && t in x.r.calls && x.r.calls[t].pc == P.AtPublish
    ensures CanRun(x, p, steps) && x.w.frees[t].stripe < |x.w.heads| && |steps| <= W.Effort(x.w, t)
    ensures Trace(x, p, steps) == [P.Event.Publish(t, x.w.frees[t].stripe)]
    decreases if t in x.w.frees && x.w.frees[t].stripe < |x.w.heads| then W.Effort(x.w, t) else 0
  {
    hide W.Inv, W.Apply, P.Apply, W.Enabled;
    W.PushGoesOn(x.w, t);
    var s := Word(W.NextOf(x.w, t));
    PublishNext(x, p, t);
    var rest := [];
    if t in Next(x, p, s).w.frees {
      rest := PublishesAlone(Next(x, p, s), p, t);
    }
    steps := [s] + rest;
    RunFirst(x, p, s, rest);
  }

  /** One step of it. */
  lemma PublishNext(x: Joint, p: P.PageId, t: P.Tid)
    requires Reflects(x, p) && t in x.w.frees && t in x.r.calls && x.r.calls[t].pc == P.AtPublish
    ensures Enabled(x, p, Word(W.NextOf(x.w, t)))
    ensures var s, x' := Word(W.NextOf(x.w, t)), Next(x, p, Word(W.NextOf(x.w, t)));
      if t in x'.w.frees
      then Seen(x, p, s).None? && x'.r == x.r
           && x'.w.frees[t].stripe == x.w.frees[t].stripe < |x'.w.heads| && x.w.frees[t].stripe < |x.w.heads| && W.Effort(x'.w, t) < W.Effort(x.w, t)
      else Seen(x, p, s) == Some(P.Event.Publish(t, x.w.frees[t].stripe)) && x.w.frees[t].stripe < |x.w.heads| && W.Effort(x.w, t) == 1
  {
    hide W.Inv, P.Apply;
    W.PushGoesOn(x.w, t);
  }

  /** A page that no remote free is inside starts out reflected by clear words. */
  lemma StartsReflected(r: P.State, p: P.PageId)
    requires p in r.pages && (forall i :: 0 <= i < |r.pages[p].slots| ==> r.pages[p].slots[i].Free? || r.pages[p].slots[i].Live?)
    requires forall t :: t in r.calls ==> r.calls[t].page != p
    ensures Reflects(Joint(W.Init(|r.pages[p].slots|, P.STRIPES), r.pages[p].slots, r), p)
  {
    W.InitInv(|r.pages[p].slots|, P.STRIPES);
    var x := Joint(W.Init(|r.pages[p].slots|, P.STRIPES), r.pages[p].slots, r);
    assert Slots(x) == r.pages[p].slots;
  }

  // The count.

  lemma {:induction false} CountIs(slots: seq<P.Slot>, v: P.Slot, xs: seq<nat>)
    requires NoDup(xs) && forall i: nat :: i in xs <==> i < |slots| && slots[i] == v
    ensures P.Count(slots, v) == |xs|
  {
    assert xs != [] ==> xs[0] in xs;
    if slots != [] {
      var n := |slots| - 1;
      if slots[n] == v {
        assert n in xs;
        var k :| 0 <= k < |xs| && xs[k] == n;
        var rest := xs[..k] + xs[k + 1..];
        Spliced(xs, k);
        forall i: nat ensures i in rest <==> i < n && slots[..n][i] == v {
          assert i in rest <==> i in xs && i != n;
        }
        CountIs(slots[..n], v, rest);
      } else {
        CountIs(slots[..n], v, xs);
      }
    }
  }

  lemma Spliced(xs: seq<nat>, k: nat)
    requires NoDup(xs) && k < |xs|
    ensures NoDup(xs[..k] + xs[k + 1..])
    ensures forall i: nat :: i in xs[..k] + xs[k + 1..] <==> i in xs && i != xs[k]
  {
    assert xs == xs[..k] + [xs[k]] + xs[k + 1..];
  }

  /** The free count that the protocol adds at the exchange is the number of
      nodes that the owner is about to walk. */
  lemma ExchangeCountsTheChain(x: Joint, p: P.PageId)
    requires Reflects(x, p) && W.Enabled(x.w, W.Exchange)
    ensures var k := x.w.owner.stripe;
      && P.DoDrain(x.r, p, k).pages[p].freeCount == x.r.pages[p].freeCount + |x.w.stacks[k]|
      && W.Apply(x.w, W.Exchange).detached == x.w.stacks[k]
  {
    var k := x.w.owner.stripe;
    assert W.StackOk(x.w, k);
    forall i: nat ensures i in x.w.stacks[k] <==> i < |x.mine| && Slots(x)[i] == P.Slot.Published(k) {
      if i < |x.mine| { assert W.SlotOk(x.w, i); }
    }
    CountIs(Slots(x), P.Slot.Published(k), x.w.stacks[k]);
  }
}
