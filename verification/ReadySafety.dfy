/** What the invariant means for the allocator, over every run. */
module ReadySafety {
  import opened Basics
  import opened ReadyProtocol
  import opened ReadyInvariant

  lemma ReachableInv(es: seq<Event>)
    requires CanRun(INIT, es)
    ensures Inv(Run(INIT, es))
  {
    InitInv();
    RunInv(INIT, es);
  }

  lemma ReachableRetiredNoDup(es: seq<Event>)
    requires CanRun(INIT, es)
    ensures NoDup(Run(INIT, es).retired)
  {
    ReachableInv(es);
  }

  lemma ReachableActiveNoDup(es: seq<Event>)
    requires CanRun(INIT, es)
    ensures NoDup(Run(INIT, es).active)
  {
    ReachableInv(es);
  }

  lemma ReachableHeadIsNotTail(es: seq<Event>)
    requires CanRun(INIT, es) && |Run(INIT, es).active| > 1
    ensures Run(INIT, es).active[0] != Run(INIT, es).active[|Run(INIT, es).active| - 1]
  {
    ReachableInv(es);
  }

  lemma FreeCountBound(es: seq<Event>, p: PageId)
    requires CanRun(INIT, es) && p in Run(INIT, es).pages
    ensures Run(INIT, es).pages[p].freeCount <= |Run(INIT, es).pages[p].slots|
  {
    ReachableInv(es);
    assert PageOk(Run(INIT, es), p);
  }

  lemma ReachableListsDisjoint(es: seq<Event>, p: PageId)
    requires CanRun(INIT, es)
    ensures !(p in Run(INIT, es).active && p in Run(INIT, es).retired)
    ensures p in Run(INIT, es).active || p in Run(INIT, es).retired ==> p in Run(INIT, es).pages && 0 < |Run(INIT, es).pages[p].slots|
    ensures p in Run(INIT, es).retired ==> Run(INIT, es).pages[p].kind == InRetired
    ensures p in Run(INIT, es).active ==> Run(INIT, es).pages[p].kind == InActive
  {
    ReachableInv(es);
    if p in Run(INIT, es).pages {
      assert PageOk(Run(INIT, es), p);
    }
  }

  lemma ReachableRetired(es: seq<Event>, p: PageId)
    requires CanRun(INIT, es) && p in Run(INIT, es).pages && Run(INIT, es).pages[p].kind == InRetired
    ensures p in Run(INIT, es).retired && 0 < |Run(INIT, es).pages[p].slots|
    ensures Run(INIT, es).pages[p].flag ==> !Run(INIT, es).pages[p].onStack
  {
    ReachableInv(es);
    assert PageOk(Run(INIT, es), p);
  }

  lemma {:induction false} RunAppend(s: State, a: seq<Event>, b: seq<Event>)
    requires CanRun(s, a) && CanRun(Run(s, a), b)
    ensures CanRun(s, a + b) && Run(s, a + b) == Run(Run(s, a), b)
    decreases |b|
  {
    if b == [] {
      assert a + b == a;
    } else {
      var n := |b| - 1;
      RunAppend(s, a, b[..n]);
      assert (a + b)[..|a + b| - 1] == a + b[..n];
      assert (a + b)[|a + b| - 1] == b[n];
    }
  }

  lemma RunOne(s: State, e: Event)
    requires Enabled(s, e)
    ensures CanRun(s, [e]) && Run(s, [e]) == Apply(s, e)
  {
    assert [e][..0] == [];
    assert CanRun(s, []);
  }

  lemma OnlyReclaimRemoves(s: State, e: Event)
    requires Enabled(s, e)
    ensures e != Reclaim ==> s.pages.Keys <= Apply(s, e).pages.Keys
    ensures e == Reclaim ==> s.hold.Detached? && Apply(s, e).pages == s.pages - {s.hold.page}
  {}

  lemma ReclaimedIsFree(s: State)
    requires Inv(s) && CanReclaim(s)
    ensures forall i :: 0 <= i < |s.pages[s.hold.page].slots| ==> s.pages[s.hold.page].slots[i] == Free
    ensures forall t :: t in s.calls ==> s.calls[t].page != s.hold.page
    ensures s.hold.page !in s.active && s.hold.page !in s.retired && s.hold.page !in s.ready
  {
    assert PageOk(s, s.hold.page);
    CountAll(s.pages[s.hold.page].slots, Free);
    forall t | t in s.calls ensures s.calls[t].page != s.hold.page { assert CallOk(s, t); }
  }

  /** The only step that destroys a page is a reclaim by the owner, and then
      every slot of the page is free, no remote free is inside it, and neither
      list nor the ready stack can still reach it. */
  lemma OnlyIdlePagesAreDestroyed(es: seq<Event>, e: Event, p: PageId)
    requires CanRun(INIT, es) && Enabled(Run(INIT, es), e)
    requires p in Run(INIT, es).pages && p !in Apply(Run(INIT, es), e).pages
    ensures var s := Run(INIT, es);
      && e == Reclaim
      && (forall i :: 0 <= i < |s.pages[p].slots| ==> s.pages[p].slots[i] == Free)
      && (forall t :: t in s.calls ==> s.calls[t].page != p)
      && p !in s.active && p !in s.retired && p !in s.ready
  {
    var s := Run(INIT, es);
    ReachableInv(es);
    OnlyReclaimRemoves(s, e);
    ReclaimedIsFree(s);
  }

  /** What has been handed out can be freed, locally or by another thread, and a
      local free at once undoes the allocation. */
  lemma FreeUndoesAlloc(s: State, p: PageId, i: nat, t: Tid)
    requires CanAlloc(s, p, i)
    ensures var s' := DoAlloc(s, p, i);
      && s'.pages[p].slots[i] == Live && CanLocalFree(s', p, i) && DoLocalFree(s', p, i) == s
      && (t !in s.calls ==> CanClaim(s', t, p, i))
  {
    var s' := DoAlloc(s, p, i);
    assert s'.pages[p].slots[i := Free] == s.pages[p].slots;
    assert s'.pages[p := s.pages[p]] == s.pages;
  }

  /** Nothing the owner or any other thread does can free or destroy an
      object that nobody frees. */
  lemma {:induction false} LiveObjectSurvives(s: State, es: seq<Event>, p: PageId, i: nat)
    requires Inv(s) && CanRun(s, es)
    requires p in s.pages && i < |s.pages[p].slots| && s.pages[p].slots[i] == Live
    requires forall e :: e in es ==> e != LocalFree(p, i) && !(e.Claim? && e.page == p && e.slot == i)
    ensures p in Run(s, es).pages && i < |Run(s, es).pages[p].slots| && Run(s, es).pages[p].slots[i] == Live
    decreases |es|
  {
    if es != [] {
      var before := Run(s, es[..|es| - 1]);
      LiveObjectSurvives(s, es[..|es| - 1], p, i);
      RunInv(s, es[..|es| - 1]);
      LiveStep(before, es[|es| - 1], p, i);
    }
  }

  lemma LiveStep(s: State, e: Event, p: PageId, i: nat)
    requires Inv(s) && Enabled(s, e)
    requires p in s.pages && i < |s.pages[p].slots| && s.pages[p].slots[i] == Live
    requires e != LocalFree(p, i) && !(e.Claim? && e.page == p && e.slot == i)
    ensures p in Apply(s, e).pages && |Apply(s, e).pages[p].slots| == |s.pages[p].slots| && Apply(s, e).pages[p].slots[i] == Live
  {
    if e == Reclaim {
      ReclaimedIsFree(s);
    } else if ChangesSlots(e) {
      if e.Publish? {
        assert CallOk(s, e.tid);
      }
      LiveThroughChange(s, e, p, i);
    } else {
      KeepsSlots(s, e);
    }
  }

  lemma LiveThroughChange(s: State, e: Event, p: PageId, i: nat)
    requires Enabled(s, e) && ChangesSlots(e) && e != Reclaim
    requires p in s.pages && i < |s.pages[p].slots| && s.pages[p].slots[i] == Live
    requires e != LocalFree(p, i) && !(e.Claim? && e.page == p && e.slot == i)
    requires e.Publish? ==> CallOk(s, e.tid)
    ensures p in Apply(s, e).pages && |Apply(s, e).pages[p].slots| == |s.pages[p].slots| && Apply(s, e).pages[p].slots[i] == Live
  {}

  /** A remote free that has claimed a slot finds its page alive until it
      publishes, and no state of the other threads can block its next step. */
  lemma RemoteFreeNeverBlocks(es: seq<Event>, t: Tid, stripe: nat)
    requires CanRun(INIT, es) && t in Run(INIT, es).calls && stripe < STRIPES
    ensures var s := Run(INIT, es);
      && s.calls[t].page in s.pages
      && s.calls[t].slot < |s.pages[s.calls[t].page].slots|
      && s.pages[s.calls[t].page].slots[s.calls[t].slot] == Claimed(t)
      && (if s.calls[t].pc == AtPublish then Enabled(s, Publish(t, stripe)) else Enabled(s, Note(t)))
  {
    ReachableInv(es);
    assert CallOk(Run(INIT, es), t);
  }

  /** A page in some stage of the ready handshake: tracked, taken by a winning
      note, or on the ready stack. */
  ghost predicate InHandshake(s: State, p: PageId) {
    p in s.pages && (s.pages[p].flag || p in s.ready || exists t :: t in s.calls && Winning(s.calls[t]) && s.calls[t].page == p)
  }

  /** In every interleaving, a page in the handshake is linked in `retired`
      (once) and nowhere else, and its generation is the one it was marked with. */
  lemma HandshakePagesAreRetired(es: seq<Event>, p: PageId)
    requires CanRun(INIT, es) && InHandshake(Run(INIT, es), p)
    ensures var s := Run(INIT, es);
      p in s.retired && p !in s.active && NoDup(s.retired) && s.pages[p].gen == s.pages[p].readyGen
  {
    var s := Run(INIT, es);
    ReachableInv(es);
    assert PageOk(s, p);
    if t :| t in s.calls && Winning(s.calls[t]) && s.calls[t].page == p {
      assert WinnerOk(s, t);
    }
  }

  /** A page taken by a note, or on the ready stack, stays in `retired` through
      any step: no sweep and no local reclaim destroys or promotes it. The pop
      that takes it off the stack leaves it there too. */
  lemma TakenPagesStayRetired(es: seq<Event>, e: Event, p: PageId)
    requires CanRun(INIT, es) && Enabled(Run(INIT, es), e)
    requires InHandshake(Run(INIT, es), p) && !Run(INIT, es).pages[p].flag
    ensures p in Apply(Run(INIT, es), e).pages && p in Apply(Run(INIT, es), e).retired
  {
    var s := Run(INIT, es);
    ReachableInv(es);
    StepInv(s, e);
    assert TakenOk(s, p) by {
      if p !in s.ready {
        var t :| t in s.calls && Winning(s.calls[t]) && s.calls[t].page == p;
        assert WinnerOk(s, t);
      }
    }
    TakenStep(s, e, p);
    assert ListsOk(Apply(s, e));
  }

  lemma TakenStep(s: State, e: Event, p: PageId)
    requires Enabled(s, e) && TakenOk(s, p)
    requires ListsOk(s)
    ensures p in Apply(s, e).pages && Apply(s, e).pages[p].kind == InRetired
  {}

  /** A popped candidate is always the page that was marked: the generation
      guard of the ready loop never fires. */
  lemma NoStaleCandidate(es: seq<Event>)
    requires CanRun(INIT, es)
    ensures !Enabled(Run(INIT, es), DropStale)
  {
    ReachableInv(es);
  }

  // Harvest's ready loop terminates although other threads keep pushing.

  predicate WinsFor(s: State, t: Tid, p: PageId) {
    t in s.calls && Winning(s.calls[t]) && s.calls[t].page == p
  }

  /** The pages the ready stack can still produce without a new mark. */
  ghost function Pending(s: State): set<PageId> {
    set p | p in s.pages && (s.pages[p].flag || p in s.ready || exists t :: WinsFor(s, t, p))
  }

  /** No step but the owner's mark adds a page, and a pop removes one. */
  lemma PendingStep(s: State, e: Event)
    requires Inv(s) && Enabled(s, e) && e != Mark
    ensures Pending(Apply(s, e)) <= Pending(s)
    ensures e == Pop ==> s.ready[0] in Pending(s) && s.ready[0] !in Pending(Apply(s, e))
  {
    var s' := Apply(s, e);
    forall p | p in Pending(s') ensures p in Pending(s) {
      PendingMember(s, p);
      if s'.pages[p].flag {
        FlagStep(s, e, p);
      } else if p in s'.ready {
        ReadyStep(s, e, p);
      } else {
        var t :| WinsFor(s', t, p);
        WinStep(s, e, t, p);
      }
    }
    if e == Pop {
      PopRemoves(s);
    }
  }

  lemma PendingAfter(es: seq<Event>, e: Event)
    requires CanRun(INIT, es) && Enabled(Run(INIT, es), e) && e != Mark
    ensures Pending(Apply(Run(INIT, es), e)) <= Pending(Run(INIT, es))
  {
    ReachableInv(es);
    PendingStep(Run(INIT, es), e);
  }

  lemma PopRemoves(s: State)
    requires Inv(s) && CanPop(s)
    ensures s.ready[0] in Pending(s) && s.ready[0] !in Pending(DoPop(s))
  {
    var p := s.ready[0];
    assert TakenOk(s, p);
    forall t | t in s.calls && Winning(s.calls[t]) ensures s.calls[t].page != p { assert WinnerOk(s, t); }
    assert forall t :: WinsFor(DoPop(s), t, p) ==> WinsFor(s, t, p);
  }

  // What one step can do to the handshake, whoever takes it.

  lemma FlagStep(s: State, e: Event, p: PageId)
    requires Enabled(s, e) && e != Mark && p in Apply(s, e).pages && Apply(s, e).pages[p].flag
    ensures p in s.pages && s.pages[p].flag
  {}

  lemma ReadyStep(s: State, e: Event, p: PageId)
    requires Enabled(s, e) && p in Apply(s, e).ready
    ensures p in s.ready || (e.Note? && WinsFor(s, e.tid, p))
  {}

  lemma WinStep(s: State, e: Event, t: Tid, p: PageId)
    requires Enabled(s, e) && WinsFor(Apply(s, e), t, p)
    ensures WinsFor(s, t, p) || (p in s.pages && s.pages[p].flag)
  {}

  lemma PendingMember(s: State, p: PageId)
    requires Inv(s)
    ensures p in Pending(s) <== p in s.ready || (exists t :: WinsFor(s, t, p)) || (p in s.pages && s.pages[p].flag)
  {
    if p in s.ready {
      assert TakenOk(s, p);
    } else if t :| WinsFor(s, t, p) {
      assert WinnerOk(s, t);
    }
  }

  /** What the owner finds on the ready stack is in `retired`, and taking it
      leaves fewer pages that the stack can still produce. */
  lemma PoppedCandidate(es: seq<Event>)
    requires CanRun(INIT, es) && Run(INIT, es).ready != []
    ensures var s := Run(INIT, es);
      && s.ready[0] in s.pages && s.ready[0] in s.retired
      && !s.pages[s.ready[0]].flag
      && (s.hold == Nothing && |s.active| <= SCAN_LIMIT ==>
            CanPop(s) && Pending(DoPop(s)) < Pending(s) && s.ready[0] in Pending(s) && s.ready[0] !in Pending(DoPop(s)))
  {
    var s := Run(INIT, es);
    ReachableInv(es);
    assert TakenOk(s, s.ready[0]);
    if s.hold == Nothing && |s.active| <= SCAN_LIMIT {
      PendingStep(s, Pop);
    }
  }

  function Pops(es: seq<Event>): nat {
    if es == [] then 0 else Pops(es[..|es| - 1]) + (if es[|es| - 1] == Pop then 1 else 0)
  }

  lemma CardSubset(a: set<PageId>, b: set<PageId>)
    requires a <= b
    ensures |a| <= |b|
    ensures a != b ==> |a| < |b|
  {
    assert b == a + (b - a);
  }

  /** However many remote frees run in between, the owner can pop at most as
      many pages as were pending, until it marks a new one. */
  lemma {:induction false} PopsAreBounded(s: State, es: seq<Event>)
    requires Inv(s) && CanRun(s, es) && Mark !in es
    ensures Pops(es) + |Pending(Run(s, es))| <= |Pending(s)|
    decreases |es|
  {
    if es != [] {
      var init, e := es[..|es| - 1], es[|es| - 1];
      PopsAreBounded(s, init);
      RunInv(s, init);
      PendingStep(Run(s, init), e);
      CardSubset(Pending(Run(s, es)), Pending(Run(s, init)));
    }
  }
}
