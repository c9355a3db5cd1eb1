/** What the outstanding count is exactly. `ReadyHint` bounds it from one side;
    here every unit that is never paid is accounted for, and a page that nothing
    of the kind happens to gets onto the ready stack by its last remote free. */
module ReadyCount {
  import opened ReadyProtocol
  import opened ReadyInvariant
  import opened ReadySafety
  import opened ReadyHint

  /** The step takes a debt off the page without a decrement: a local free, or a
      remote free that finds the flag down. */
  predicate Skips(s: State, e: Event, p: PageId) {
    (e.LocalFree? && e.page == p)
    || (e.Note? && At(s, e.tid, AtLoadFlag) && s.calls[e.tid].page == p && !s.pages[p].flag)
  }

  // How the sum moves, slot by slot.

  lemma {:induction false} OwedSame(a: seq<Slot>, c: map<Tid, Call>, b: seq<Slot>, d: map<Tid, Call>)
    requires |a| == |b| && forall j :: 0 <= j < |a| ==> (Owes(a[j], c) <==> Owes(b[j], d))
    ensures Owed(b, d) == Owed(a, c)
  {
    if a != [] {
      OwedSame(a[..|a| - 1], c, b[..|a| - 1], d);
    }
  }

  /** One slot may have begun or ceased to owe. */
  lemma {:induction false} OwedOne(a: seq<Slot>, c: map<Tid, Call>, b: seq<Slot>, d: map<Tid, Call>, i: nat)
    requires |a| == |b| && i < |a| && forall j :: 0 <= j < |a| && j != i ==> (Owes(a[j], c) <==> Owes(b[j], d))
    ensures Owed(b, d) == Owed(a, c) - (if Owes(a[i], c) then 1 else 0) + (if Owes(b[i], d) then 1 else 0)
  {
    var n := |a| - 1;
    if i < n {
      OwedOne(a[..n], c, b[..n], d, i);
    } else {
      OwedSame(a[..n], c, b[..n], d);
    }
  }

  /** A slot that is in use owes, or a remote free of it is past its decrement. */
  lemma {:induction false} OwedAll(slots: seq<Slot>, calls: map<Tid, Call>)
    ensures Owed(slots, calls) + Count(slots, Free) <= |slots|
    ensures Owed(slots, calls) + Count(slots, Free) == |slots| <==> forall i :: 0 <= i < |slots| ==> slots[i] == Free || Owes(slots[i], calls)
  {
    if slots != [] {
      OwedAll(slots[..|slots| - 1], calls);
    }
  }

  // The count when the page is retired.

  /** The page is marked with as many units as there are debts if and only if
      every slot that is not free still owes: nothing is published, and no remote
      free of the page is past its decrement. */
  lemma RetireIsExactIff(s: State)
    requires Inv(s) && CanRetire(s)
    ensures var p, s' := s.hold.page, DoRetire(s);
      s'.pages[p].outstanding == Owed(s'.pages[p].slots, s'.calls) <==> forall i :: 0 <= i < |s.pages[p].slots| ==> s.pages[p].slots[i] == Free || Owes(s.pages[p].slots[i], s.calls)
  {
    hide Owed, Count;
    assert PageOk(s, s.hold.page);
    OwedAll(s.pages[s.hold.page].slots, s.calls);
  }

  // Every step, exactly.

  function Slack(s: State, p: PageId): int
    requires p in s.pages
  {
    s.pages[p].outstanding - Owed(s.pages[p].slots, s.calls)
  }

  /** The slot of a remote free's page and no other is its. */
  lemma NotTheirs(s: State, t: Tid, p: PageId)
    requires SlotInv(s) && p in s.pages && t in s.calls
    ensures forall j :: 0 <= j < |s.pages[p].slots| && s.pages[p].slots[j] == Claimed(t) ==> s.calls[t].page == p && s.calls[t].slot == j
  {
    assert ClaimsOk(s, p);
  }

  lemma ClaimersCall(s: State, p: PageId)
    requires SlotInv(s) && p in s.pages
    ensures forall j :: 0 <= j < |s.pages[p].slots| && s.pages[p].slots[j].Claimed? ==> s.pages[p].slots[j].tid in s.calls
  {
    assert ClaimsOk(s, p);
  }

  lemma NoteOwes(s: State, t: Tid, p: PageId)
    requires SlotInv(s) && Enabled(s, Note(t)) && p in s.pages
    ensures var s' := Apply(s, Note(t)); var c := s.calls[t];
      p in s'.pages && Owed(s'.pages[p].slots, s'.calls) ==
      Owed(s.pages[p].slots, s.calls) - (if c.page == p && (c.pc == AtDecrement || (c.pc == AtLoadFlag && !s.pages[p].flag)) then 1 else 0)
  {
    hide Owed;
    var s', c := Apply(s, Note(t)), s.calls[t];
    KeepsSlots(s, Note(t));
    NotTheirs(s, t, p);
    assert CallOk(s, t);
    if c.page == p {
      OwedOne(s.pages[p].slots, s.calls, s'.pages[p].slots, s'.calls, c.slot);
    } else {
      OwedSame(s.pages[p].slots, s.calls, s'.pages[p].slots, s'.calls);
    }
  }

  lemma ClaimOwes(s: State, e: Event, p: PageId)
    requires SlotInv(s) && Enabled(s, e) && (e.Claim? || e.Publish?) && p in s.pages
    ensures var s' := Apply(s, e); p in s'.pages && Owed(s'.pages[p].slots, s'.calls) == Owed(s.pages[p].slots, s.calls)
  {
    hide Owed;
    var s' := Apply(s, e);
    ClaimersCall(s, p);
    if e.Publish? {
      NotTheirs(s, e.tid, p);
      assert CallOk(s, e.tid);
    }
    OwedSame(s.pages[p].slots, s.calls, s'.pages[p].slots, s'.calls);
  }

  lemma OwnerOwes(s: State, e: Event, p: PageId)
    requires Enabled(s, e) && !Remote(e) && p in s.pages && s.pages[p].kind == InRetired && p in Apply(s, e).pages
    ensures var s' := Apply(s, e);
      Owed(s'.pages[p].slots, s'.calls) == Owed(s.pages[p].slots, s.calls) - (if e.LocalFree? && e.page == p then 1 else 0)
  {
    hide Owed;
    var s' := Apply(s, e);
    if e.LocalFree? && e.page == p {
      OwedOne(s.pages[p].slots, s.calls, s'.pages[p].slots, s'.calls, e.slot);
    } else {
      OwedSame(s.pages[p].slots, s.calls, s'.pages[p].slots, s'.calls);
    }
  }

  /** While the page is counting, the slack grows by exactly the debts that were
      skipped. */
  lemma SlackStep(s: State, e: Event, p: PageId)
    requires Inv(s) && Accurate(s) && Enabled(s, e) && p in s.pages && Counting(s, p)
    requires p in Apply(s, e).pages && Counting(Apply(s, e), p)
    ensures Slack(Apply(s, e), p) == Slack(s, p) + (if Skips(s, e, p) then 1 else 0)
  {
    hide Owed, SlotInv, ListsOk, ReadyInv;
    assert PageOk(s, p);
    CountingIsRetired(s, p);
    CountStep(s, e, p);
    if e.Note? {
      NoteOwes(s, e.tid, p);
      if s.calls[e.tid].pc == AtDecrement && s.calls[e.tid].page == p { DecrementHasItsUnit(s, e.tid); }
    } else if Remote(e) {
      ClaimOwes(s, e, p);
    } else {
      OwnerOwes(s, e, p);
    }
  }

  // Whole runs.

  /** The debts that the run has skipped. */
  function Skipped(s: State, es: seq<Event>, p: PageId): nat
    requires CanRun(s, es)
    decreases |es|
  {
    if es == [] then 0
    else Skipped(s, es[..|es| - 1], p) + (if Skips(Run(s, es[..|es| - 1]), es[|es| - 1], p) then 1 else 0)
  }

  ghost predicate CountsThroughout(s: State, es: seq<Event>, p: PageId)
    requires CanRun(s, es)
    decreases |es|
  {
    p in Run(s, es).pages && Counting(Run(s, es), p) && (es != [] ==> CountsThroughout(s, es[..|es| - 1], p))
  }

  /** On every run, for as long as the page is tracked: the outstanding count is
      the slots that still owe, plus what was already amiss at the start, plus
      exactly the debts skipped since. */
  lemma {:induction false} CountIsExact(s: State, es: seq<Event>, p: PageId)
    requires Inv(s) && Accurate(s) && CanRun(s, es) && p in s.pages && CountsThroughout(s, es, p)
    ensures Slack(Run(s, es), p) == Slack(s, p) + Skipped(s, es, p)
    decreases |es|
  {
    if es != [] {
      var before := es[..|es| - 1];
      CountIsExact(s, before, p);
      RunInv(s, before);
      RunAccurate(s, before);
      hide Inv, Accurate, Slack, Counting, Skips, Apply, Enabled;
      SlackStep(Run(s, before), es[|es| - 1], p);
    }
  }

  // A page that nothing is skipped for reaches the ready stack.

  ghost predicate AtFlag(s: State, t: Tid, p: PageId) {
    t in s.calls && s.calls[t].page == p && s.calls[t].pc == AtTakeFlag
  }

  /** The count is exact, and whoever takes it to zero is about to take the flag;
      until the flag is up, no remote free of the page has read it. */
  ghost predicate Exact(s: State, p: PageId) {
    && p in s.pages && Counting(s, p) && Slack(s, p) == 0
    && (s.hold == Marking(p) ==> s.pages[p].outstanding > 0 && forall t :: t in s.calls && s.calls[t].page == p ==> s.calls[t].pc == AtLoadFlag)
    && (s.pages[p].flag && s.pages[p].outstanding == 0 ==> exists t :: AtFlag(s, t, p))
  }

  /** Taken by a note that will push it, or on the ready stack. */
  ghost predicate OnItsWay(s: State, p: PageId) {
    InHandshake(s, p) && !s.pages[p].flag
  }

  /** The step neither takes the page out of the handshake nor skips a debt. */
  predicate Leaves(s: State, e: Event, p: PageId) {
    !Skips(s, e, p) && e != Cancel(p) && !(e == Pop && s.ready != [] && s.ready[0] == p)
  }

  lemma RetireStartsExact(s: State)
    requires Inv(s) && Accurate(s) && CanRetire(s)
    requires forall i :: 0 <= i < |s.pages[s.hold.page].slots| ==> s.pages[s.hold.page].slots[i] == Free || s.pages[s.hold.page].slots[i] == Live
    ensures Exact(DoRetire(s), s.hold.page)
  {
    hide Owed, Count;
    var p, s' := s.hold.page, DoRetire(s);
    RetireIsExactIff(s);
    assert PageOk(s, p);
    forall t | t in s.calls ensures s.calls[t].page != p { assert CallOk(s, t); }
    assert s'.pages[p].outstanding == |s.pages[p].slots| - s.pages[p].freeCount;
  }

  lemma OnItsWayStep(s: State, e: Event, p: PageId)
    requires Inv(s) && Enabled(s, e) && OnItsWay(s, p) && Leaves(s, e, p)
    ensures OnItsWay(Apply(s, e), p)
  {
    hide SlotInv, ListsOk, PageInv;
    var s' := Apply(s, e);
    assert TakenOk(s, p) by {
      if p !in s.ready {
        var t :| t in s.calls && Winning(s.calls[t]) && s.calls[t].page == p;
        assert WinnerOk(s, t);
      }
    }
    TakenNotFlagged(s, e, p);
    if p in s.ready {
      StaysOnStack(s, e, p);
    } else {
      var t :| t in s.calls && Winning(s.calls[t]) && s.calls[t].page == p;
      WinnerGoesOn(s, e, t);
    }
  }

  lemma TakenNotFlagged(s: State, e: Event, p: PageId)
    requires Inv(s) && Enabled(s, e) && TakenOk(s, p)
    ensures p in Apply(s, e).pages && !Apply(s, e).pages[p].flag
  {
    hide SlotInv, ReadyInv, ListsOk, Count;
  }

  lemma StaysOnStack(s: State, e: Event, p: PageId)
    requires Enabled(s, e) && p in s.ready && !(e == Pop && s.ready[0] == p)
    ensures p in Apply(s, e).ready
  {}

  lemma WinnerGoesOn(s: State, e: Event, t: Tid)
    requires Enabled(s, e) && t in s.calls && Winning(s.calls[t])
    ensures var p, s' := s.calls[t].page, Apply(s, e); p in s'.ready || (t in s'.calls && Winning(s'.calls[t]) && s'.calls[t].page == p)
  {}

  lemma ExactStep(s: State, e: Event, p: PageId)
    requires Inv(s) && Accurate(s) && Enabled(s, e) && Exact(s, p) && Leaves(s, e, p)
    ensures Exact(Apply(s, e), p) || OnItsWay(Apply(s, e), p)
  {
    hide Owed, Slack, Accurate, SlotInv, ListsOk, ReadyInv;
    var s' := Apply(s, e);
    assert PageOk(s, p);
    CountingStays(s, e, p);
    if TakesFlag(s, e, p) {
      assert Winning(s'.calls[e.tid]);
    } else {
      SlackStep(s, e, p);
      ZeroStep(s, e, p);
    }
  }

  /** The note is about to lower the page's flag. */
  predicate TakesFlag(s: State, e: Event, p: PageId) {
    e.Note? && At(s, e.tid, AtTakeFlag) && s.calls[e.tid].page == p && s.pages[p].flag
  }

  lemma CountingStays(s: State, e: Event, p: PageId)
    requires Enabled(s, e) && p in s.pages && PageOk(s, p) && Counting(s, p) && e != Cancel(p)
    ensures p in Apply(s, e).pages && (TakesFlag(s, e, p) || Counting(Apply(s, e), p))
    ensures TakesFlag(s, e, p) ==> !Apply(s, e).pages[p].flag && Winning(Apply(s, e).calls[e.tid]) && e.tid in Apply(s, e).calls && Apply(s, e).calls[e.tid].page == p
  {
    hide Count;
  }

  /** Until the flag is up, no remote free of the page gets past reading it. */
  lemma MarkingStep(s: State, e: Event, p: PageId)
    requires Inv(s) && Enabled(s, e) && Exact(s, p) && Leaves(s, e, p) && p in Apply(s, e).pages && Apply(s, e).hold == Marking(p)
    ensures Apply(s, e).pages[p].outstanding > 0
    ensures forall t :: t in Apply(s, e).calls && Apply(s, e).calls[t].page == p ==> Apply(s, e).calls[t].pc == AtLoadFlag
  {
    hide Slack, SlotInv, ListsOk, ReadyInv;
    assert PageOk(s, p);
  }

  /** What `Exact` says beside the slack. */
  lemma ZeroStep(s: State, e: Event, p: PageId)
    requires Inv(s) && Accurate(s) && Enabled(s, e) && Exact(s, p) && Leaves(s, e, p) && !TakesFlag(s, e, p)
    requires p in Apply(s, e).pages && Counting(Apply(s, e), p)
    ensures var s' := Apply(s, e);
      && (s'.hold == Marking(p) ==> s'.pages[p].outstanding > 0 && forall t :: t in s'.calls && s'.calls[t].page == p ==> s'.calls[t].pc == AtLoadFlag)
      && (s'.pages[p].flag && s'.pages[p].outstanding == 0 ==> exists t :: AtFlag(s', t, p))
  {
    hide Slack, Accurate, ListsOk, ReadyInv, PageInv;
    var s' := Apply(s, e);
    if s'.hold == Marking(p) { MarkingStep(s, e, p); }
    CountStep(s, e, p);
    if s'.pages[p].flag && s'.pages[p].outstanding == 0 {
      if e.Note? && s.calls[e.tid].pc == AtDecrement && s.calls[e.tid].page == p {
        DecrementHasItsUnit(s, e.tid);
        assert AtFlag(s', e.tid, p);
      } else {
        var t :| AtFlag(s, t, p);
        assert AtFlag(s', t, p);
      }
    }
  }

  /** No step of the run takes the page out of the handshake or skips a debt. */
  ghost predicate LeftAlone(s: State, es: seq<Event>, p: PageId)
    requires CanRun(s, es)
    decreases |es|
  {
    es == [] || (LeftAlone(s, es[..|es| - 1], p) && Leaves(Run(s, es[..|es| - 1]), es[|es| - 1], p))
  }

  lemma {:induction false} StaysExact(s: State, es: seq<Event>, p: PageId)
    requires Inv(s) && Accurate(s) && Exact(s, p) && CanRun(s, es) && LeftAlone(s, es, p)
    ensures Inv(Run(s, es)) && (Exact(Run(s, es), p) || OnItsWay(Run(s, es), p))
    decreases |es|
  {
    hide Inv, Accurate, Exact, OnItsWay, Leaves, Apply, Enabled;
    RunInv(s, es);
    if es != [] {
      var before, e := es[..|es| - 1], es[|es| - 1];
      StaysExact(s, before, p);
      RunAccurate(s, before);
      if Exact(Run(s, before), p) {
        ExactStep(Run(s, before), e, p);
      } else {
        OnItsWayStep(Run(s, before), e, p);
      }
    }
  }

  /** No slot of the page is in use, and no remote free is inside it. */
  predicate AllReturned(s: State, p: PageId)
    requires p in s.pages
  {
    (forall i :: 0 <= i < |s.pages[p].slots| ==> !s.pages[p].slots[i].Live?) && (forall t :: t in s.calls ==> s.calls[t].page != p)
  }

  lemma ReturnedOwesNothing(s: State, p: PageId)
    requires SlotInv(s) && p in s.pages && AllReturned(s, p)
    ensures Owed(s.pages[p].slots, s.calls) == 0
  {
    ClaimersCall(s, p);
    forall i | 0 <= i < |s.pages[p].slots| ensures !Owes(s.pages[p].slots[i], s.calls) {
      if s.pages[p].slots[i].Claimed? { NotTheirs(s, s.pages[p].slots[i].tid, p); }
    }
    NothingOwed(s.pages[p].slots, s.calls);
  }

  lemma {:induction false} NothingOwed(slots: seq<Slot>, calls: map<Tid, Call>)
    requires forall i :: 0 <= i < |slots| ==> !Owes(slots[i], calls)
    ensures Owed(slots, calls) == 0
  {
    if slots != [] { NothingOwed(slots[..|slots| - 1], calls); }
  }

  lemma ReturnedIsListed(s: State, p: PageId)
    requires Inv(s) && (Exact(s, p) || OnItsWay(s, p)) && AllReturned(s, p)
    ensures p in s.ready
  {
    hide ListsOk, PageInv, ReadyInv, Owed;
    ReturnedOwesNothing(s, p);
  }

  /** A page is retired with nothing published and no remote free inside it. As
      long as none of its slots is freed locally, no remote free reads its flag
      before that is up, and the owner neither cancels it nor pops it: its count
      is exactly what its slots still owe; the remote free that pays the last
      unit is about to take the flag; and once every slot has come back, the
      page is on the ready stack. */
  lemma LastFreeIsListed(before: seq<Event>, es: seq<Event>)
    requires CanRun(INIT, before) && CanRetire(Run(INIT, before)) && CanRun(DoRetire(Run(INIT, before)), es)
    requires var s := Run(INIT, before); forall i :: 0 <= i < |s.pages[s.hold.page].slots| ==> s.pages[s.hold.page].slots[i] == Free || s.pages[s.hold.page].slots[i] == Live
    requires LeftAlone(DoRetire(Run(INIT, before)), es, Run(INIT, before).hold.page)
    ensures var p, s := Run(INIT, before).hold.page, Run(DoRetire(Run(INIT, before)), es);
      && p in s.pages
      && (s.pages[p].flag ==> s.pages[p].outstanding == Owed(s.pages[p].slots, s.calls))
      && (s.pages[p].flag && s.pages[p].outstanding == 0 ==> exists t :: AtFlag(s, t, p))
      && (AllReturned(s, p) ==> p in s.ready)
  {
    var p, s := Run(INIT, before).hold.page, Run(INIT, before);
    ReachableInv(before);
    InitInv();
    RunAccurate(INIT, before);
    RetireStartsExact(s);
    StepInv(s, Retire);
    StepAccurate(s, Retire);
    StaysExact(DoRetire(s), es, p);
    var s' := Run(DoRetire(s), es);
    hide Run, CanRun, Inv, Owed;
    if AllReturned(s', p) { ReturnedIsListed(s', p); }
  }
}
