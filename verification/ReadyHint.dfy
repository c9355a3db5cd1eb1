/** How far the outstanding count can be trusted. While a page is tracked, every
    slot in use, and every remote free that has not decremented yet, has its own
    unit in the count: no slot is counted twice, the count does not run below
    zero, and the decrement that reaches zero is the last there is to come. */
module ReadyHint {
  import opened ReadyProtocol
  import opened ReadyInvariant
  import opened ReadySafety

  /** The remote free has still to read the flag and decrement. */
  predicate Uncounted(c: Call) {
    c.pc == AtLoadFlag || c.pc == AtDecrement
  }

  /** A slot that still has to be paid for by a decrement. */
  predicate Owes(slot: Slot, calls: map<Tid, Call>) {
    slot.Live? || (slot.Claimed? && slot.tid in calls && Uncounted(calls[slot.tid]))
  }

  function Owed(slots: seq<Slot>, calls: map<Tid, Call>): (n: nat)
    ensures n <= |slots|
  {
    if slots == [] then 0 else Owed(slots[..|slots| - 1], calls) + (if Owes(slots[|slots| - 1], calls) then 1 else 0)
  }

  /** The page is tracked, or its count has just been stored. */
  predicate Counting(s: State, p: PageId)
    requires p in s.pages
  {
    s.pages[p].flag || s.hold == Marking(p)
  }

  ghost predicate Accurate(s: State) {
    forall p :: p in s.pages && Counting(s, p) ==> Owed(s.pages[p].slots, s.calls) <= s.pages[p].outstanding < WORD
  }

  // How the sum moves.

  /** No slot begins to owe. */
  ghost predicate NoNewDebt(a: seq<Slot>, c: map<Tid, Call>, b: seq<Slot>, d: map<Tid, Call>) {
    |a| == |b| && forall i :: 0 <= i < |a| ==> Owes(b[i], d) ==> Owes(a[i], c)
  }

  lemma {:induction false} OwedFalls(a: seq<Slot>, c: map<Tid, Call>, b: seq<Slot>, d: map<Tid, Call>)
    requires NoNewDebt(a, c, b, d)
    ensures Owed(b, d) <= Owed(a, c)
    ensures (exists i :: 0 <= i < |a| && Owes(a[i], c) && !Owes(b[i], d)) ==> Owed(b, d) < Owed(a, c)
  {
    if a != [] {
      var n := |a| - 1;
      assert NoNewDebt(a[..n], c, b[..n], d);
      OwedFalls(a[..n], c, b[..n], d);
      if i :| 0 <= i < |a| && Owes(a[i], c) && !Owes(b[i], d) {
        if i < n { assert Owes(a[..n][i], c) && !Owes(b[..n][i], d); }
      }
    }
  }

  lemma {:induction false} OwedIsNotFree(slots: seq<Slot>, calls: map<Tid, Call>)
    ensures Owed(slots, calls) + Count(slots, Free) <= |slots|
  {
    if slots != [] {
      OwedIsNotFree(slots[..|slots| - 1], calls);
    }
  }

  lemma {:induction false} OwedZero(slots: seq<Slot>, calls: map<Tid, Call>, i: nat)
    requires i < |slots| && Owed(slots, calls) == 0
    ensures !Owes(slots[i], calls)
  {
    if i < |slots| - 1 {
      OwedZero(slots[..|slots| - 1], calls, i);
    }
  }

  // Steps.

  /** A step that changes no slot adds no debt. */
  lemma PhaseStep(s: State, e: Event, t: Tid)
    requires Enabled(s, e) && !ChangesSlots(e) && t in s.calls
    ensures t in Apply(s, e).calls && (Uncounted(Apply(s, e).calls[t]) ==> Uncounted(s.calls[t]))
    ensures e == Note(t) && s.calls[t].pc == AtDecrement ==> !Uncounted(Apply(s, e).calls[t])
  {}

  lemma QuietDebt(s: State, e: Event, p: PageId)
    requires Enabled(s, e) && !ChangesSlots(e) && p in s.pages
    requires forall i :: 0 <= i < |s.pages[p].slots| && s.pages[p].slots[i].Claimed? ==> s.pages[p].slots[i].tid in s.calls
    ensures p in Apply(s, e).pages && NoNewDebt(s.pages[p].slots, s.calls, Apply(s, e).pages[p].slots, Apply(s, e).calls)
  {
    KeepsSlots(s, e);
    forall i | 0 <= i < |s.pages[p].slots| && s.pages[p].slots[i].Claimed?
      ensures Owes(Apply(s, e).pages[p].slots[i], Apply(s, e).calls) ==> Owes(s.pages[p].slots[i], s.calls) {
      PhaseStep(s, e, s.pages[p].slots[i].tid);
    }
  }

  /** A step that changes slots adds no debt to a page that is counting. */
  lemma ChangeDebt(s: State, e: Event, p: PageId)
    requires Enabled(s, e) && ChangesSlots(e) && SlotInv(s) && p in s.pages && s.pages[p].kind == InRetired && p in Apply(s, e).pages
    ensures NoNewDebt(s.pages[p].slots, s.calls, Apply(s, e).pages[p].slots, Apply(s, e).calls)
  {
    assert ClaimsOk(s, p);
    if e.Publish? { assert CallOk(s, e.tid); }
  }

  /** Only an eviction starts a count, only a decrement changes one. */
  lemma CountStep(s: State, e: Event, p: PageId)
    requires Enabled(s, e) && p in Apply(s, e).pages && Counting(Apply(s, e), p)
    ensures e == Retire || (p in s.pages && Counting(s, p))
    ensures p in s.pages && e != Retire && !(e.Note? && s.calls[e.tid].pc == AtDecrement && s.calls[e.tid].page == p) ==>
              Apply(s, e).pages[p].outstanding == s.pages[p].outstanding
  {}

  lemma RetireCounts(s: State)
    requires PageInv(s) && CanRetire(s) && Accurate(s)
    ensures Accurate(DoRetire(s))
  {
    hide Owed, Count;
    var p := s.hold.page;
    assert PageOk(s, p);
    OwedIsNotFree(s.pages[p].slots, s.calls);
    assert (|s.pages[p].slots| - s.pages[p].freeCount) % WORD == |s.pages[p].slots| - s.pages[p].freeCount;
  }

  /** A decrement on a counting page pays for the slot its free has claimed. */
  lemma DecrementPays(s: State, t: Tid)
    requires SlotInv(s) && At(s, t, AtDecrement)
    ensures var p := s.calls[t].page; var s' := DoDecrement(s, t);
      Owed(s'.pages[p].slots, s'.calls) < Owed(s.pages[p].slots, s.calls)
  {
    var c := s.calls[t];
    var s' := Apply(s, Note(t));
    assert CallOk(s, t) && ClaimsOk(s, c.page);
    QuietDebt(s, Note(t), c.page);
    OwedFalls(s.pages[c.page].slots, s.calls, s'.pages[c.page].slots, s'.calls);
    assert Owes(s.pages[c.page].slots[c.slot], s.calls) && !Owes(s'.pages[c.page].slots[c.slot], s'.calls);
  }

  /** So it finds the count above zero. */
  lemma DecrementHasItsUnit(s: State, t: Tid)
    requires SlotInv(s) && Accurate(s) && At(s, t, AtDecrement) && Counting(s, s.calls[t].page)
    ensures var p := s.calls[t].page;
      && s.pages[p].outstanding >= 1
      && DoDecrement(s, t).pages[p].outstanding == s.pages[p].outstanding - 1
      && Owed(DoDecrement(s, t).pages[p].slots, DoDecrement(s, t).calls) <= s.pages[p].outstanding - 1
  {
    hide SlotInv, Owed;
    DecrementPays(s, t);
    var o := s.pages[s.calls[t].page].outstanding;
    assert o >= 1;
    assert (o + WORD - 1) % WORD == o - 1;
  }

  lemma CountingIsRetired(s: State, p: PageId)
    requires Inv(s) && p in s.pages && Counting(s, p)
    ensures s.pages[p].kind == InRetired
    ensures forall i :: 0 <= i < |s.pages[p].slots| && s.pages[p].slots[i].Claimed? ==> s.pages[p].slots[i].tid in s.calls
  {
    assert PageOk(s, p) && ClaimsOk(s, p);
  }

  lemma StepAccurate(s: State, e: Event)
    requires Inv(s) && Accurate(s) && Enabled(s, e)
    ensures Accurate(Apply(s, e))
  {
    if e == Retire {
      RetireCounts(s);
    } else {
      var s' := Apply(s, e);
      forall p | p in s'.pages && Counting(s', p) ensures Owed(s'.pages[p].slots, s'.calls) <= s'.pages[p].outstanding < WORD {
        CountStep(s, e, p);
        PageAccurate(s, e, p);
      }
    }
  }

  lemma PageAccurate(s: State, e: Event, p: PageId)
    requires Inv(s) && Accurate(s) && Enabled(s, e) && e != Retire && p in s.pages && Counting(s, p)
    requires p in Apply(s, e).pages && Counting(Apply(s, e), p)
    ensures Owed(Apply(s, e).pages[p].slots, Apply(s, e).calls) <= Apply(s, e).pages[p].outstanding < WORD
  {
    CountingIsRetired(s, p);
    CountStep(s, e, p);
    var s' := Apply(s, e);
    if ChangesSlots(e) {
      ChangeDebt(s, e, p);
    } else {
      QuietDebt(s, e, p);
    }
    OwedFalls(s.pages[p].slots, s.calls, s'.pages[p].slots, s'.calls);
    if e.Note? && s.calls[e.tid].pc == AtDecrement && s.calls[e.tid].page == p {
      DecrementHasItsUnit(s, e.tid);
    }
  }

  lemma {:induction false} RunAccurate(s: State, es: seq<Event>)
    requires Inv(s) && Accurate(s) && CanRun(s, es)
    ensures Accurate(Run(s, es))
    decreases |es|
  {
    if es != [] {
      RunAccurate(s, es[..|es| - 1]);
      RunInv(s, es[..|es| - 1]);
      StepAccurate(Run(s, es[..|es| - 1]), es[|es| - 1]);
    }
  }

  lemma ZeroLeavesNoDebt(s: State, t: Tid)
    requires SlotInv(s) && Accurate(s) && At(s, t, AtDecrement) && Counting(s, s.calls[t].page) && s.pages[s.calls[t].page].outstanding == 1
    ensures var p := s.calls[t].page; var s' := DoDecrement(s, t);
      && (forall i :: 0 <= i < |s'.pages[p].slots| ==> s'.pages[p].slots[i] != Live)
      && (forall u :: u in s'.calls && s'.calls[u].page == p ==> !Uncounted(s'.calls[u]))
  {
    var p := s.calls[t].page;
    var s' := DoDecrement(s, t);
    DecrementHasItsUnit(s, t);
    hide Owed;
    forall i | 0 <= i < |s'.pages[p].slots| ensures !Owes(s'.pages[p].slots[i], s'.calls) { OwedZero(s'.pages[p].slots, s'.calls, i); }
    forall u | u in s'.calls && s'.calls[u].page == p ensures !Uncounted(s'.calls[u]) {
      assert CallOk(s, u);
      assert !Owes(s'.pages[p].slots[s.calls[u].slot], s'.calls);
    }
  }

  /** In every interleaving, a decrement on a tracked page never takes the count
      below zero, and the one that takes it to zero leaves no slot of the page
      in use and no remote free that has still to decrement. */
  lemma ZeroMeansNothingInUse(es: seq<Event>, t: Tid)
    requires CanRun(INIT, es) && At(Run(INIT, es), t, AtDecrement)
    requires Run(INIT, es).pages[Run(INIT, es).calls[t].page].flag
    ensures var s := Run(INIT, es); var p := s.calls[t].page; var s' := DoDecrement(s, t);
      && s.pages[p].outstanding > 0
      && (s.pages[p].outstanding > 1 ==> s'.calls[t].pc == AtPublish && s'.pages[p].outstanding == s.pages[p].outstanding - 1)
      && (s.pages[p].outstanding == 1 ==>
            && s'.calls[t].pc == AtTakeFlag
            && (forall i :: 0 <= i < |s'.pages[p].slots| ==> s'.pages[p].slots[i] != Live)
            && (forall u :: u in s'.calls && s'.calls[u].page == p ==> !Uncounted(s'.calls[u])))
  {
    var s := Run(INIT, es);
    ReachableInv(es);
    InitInv();
    RunAccurate(INIT, es);
    hide Run, CanRun, SlotInv, PageInv, ListsOk, ReadyInv;
    DecrementHasItsUnit(s, t);
    if s.pages[s.calls[t].page].outstanding == 1 {
      ZeroLeavesNoDebt(s, t);
    }
  }
}
