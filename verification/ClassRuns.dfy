/** Whole runs of one class: any sequence of the owner's operations, with any
    steps of other threads in between. */
module ClassRuns {
  import opened Basics
  import opened ReadyProtocol
  import opened ReadyInvariant
  import opened ReadySafety
  import opened SweepRotation
  import opened PageLists
  import opened ClassCounters
  import opened ClassFacts
  import opened ClassPages

  /** What the owner may do next. A request that the program could not make in
      the current state does nothing. */
  datatype Op =
    | AddPage(addr: PageId, slotCount: nat, gen: nat)
    | AllocFrom(addr: PageId, slot: nat)
    | FreeIn(addr: PageId, slot: nat, slotSize: nat)
    | ReclaimIdle(addr: PageId, slotSize: nat)
    | FindPage
    | HarvestPage
    | WaitAWhile

  /** How an operation leaves the sweep: the rotation after it, the pages that
      the ready candidates of a harvest left behind, those that it examined, how
      many pages it evicted, and whether it was a harvest that came back
      empty-handed. */
  datatype Outcome = Outcome(round: Round, gone: seq<PageId>, examined: seq<PageId>, evicted: nat, missed: bool)

  predicate Possible(s: State, op: Op) {
    match op
    case AddPage(p, n, _) => p !in s.pages && 0 < n < WORD
    case AllocFrom(p, i) => CanAlloc(s, p, i)
    case FreeIn(p, i, _) => CanLocalFree(s, p, i)
    case ReclaimIdle(p, _) => p in s.pages
    case _ => true
  }

  /** A local free reclaims the page at once. */
  predicate Reclaims(s: State, p: PageId, slotSize: nat) {
    p in s.pages && Idle(s.pages[p]) && s.pages[p].kind == InRetired && s.pages[p].flag && MIN_SLOT_SIZE <= slotSize <= MAX_SLOT_SIZE
  }

  /** The page at `at` has a slot to hand out, and those before it had none; at
      most, it has been drained and moved to the front. */
  ghost predicate Found(s: State, at: nat, s': State) {
    && at < |s.active| && Spent(s, at) && s.active[at] in s'.pages && HasCapacity(s'.pages[s.active[at]])
    && QuietBut(s, s'.(active := s.active), s.active[at])
    && (s'.active == s.active || s'.active == [s.active[at]] + Without(s.active, s.active[at]))
  }

  /** What an operation other than a harvest does to the pages. */
  ghost predicate Effect(s: State, op: Op, s': State) {
    if !Possible(s, op) then s' == s
    else match op
      case AddPage(p, n, gen) =>
        && s'.active == Fitted(p, s.active) && p in s'.pages && s'.pages[p] == Page(InActive, seq(n, i => Free), n, gen, false, 0, false, 0)
        && (s'.retired == s.retired || (s.active != [] && s'.retired == [s.active[|s.active| - 1]] + s.retired && Tracked(s', s.active[|s.active| - 1])))
      case AllocFrom(p, i) => s' == DoAlloc(s, p, i)
      case FreeIn(p, i, size) =>
        && s'.active == s.active && Elsewhere(s, s', p)
        && (if Reclaims(DoLocalFree(s, p, i), p, size) then s'.pages.Keys == s.pages.Keys - {p} && s'.retired == Without(s.retired, p)
            else Quiet(DoLocalFree(s, p, i), s'))
      case ReclaimIdle(p, size) =>
        && s'.active == s.active
        && (if Reclaims(s, p, size) then s'.pages.Keys == s.pages.Keys - {p} && s'.retired == Without(s.retired, p) && Elsewhere(s, s', p) else Quiet(s, s'))
      case FindPage => (Spent(s, |s.active|) && Quiet(s, s')) || exists at :: Found(s, at, s')
      case HarvestPage => true
      case WaitAWhile => Quiet(s, s')
  }

  /** `x` was waiting in `retired` before and after, and was not examined. */
  predicate Waits(before: Round, o: Outcome, x: PageId) {
    x in before.retired && x in o.round.retired && x !in o.examined
  }

  /** The operation has not pushed `x` back, and has brought it nearer by each
      page it examined. A harvest that misses while `x` waits examines one. */
  ghost predicate Fair(before: Round, o: Outcome, x: PageId) {
    && (Waits(before, o, x) ==> Advances(before, o.round, |o.examined|, o.evicted, x))
    && (o.missed && Waits(before, o, x) ==> o.examined != [])
  }

  lemma ArrivalAdvances(s: State, a: Stats, s': State, b: Stats, cursor: Cursor, x: PageId)
    requires NoDup(s.retired) && CursorOk(Round(s.retired, cursor)) && a.evictions <= b.evictions
    requires s.active != [] ==> s.active[|s.active| - 1] !in s.retired
    requires s'.retired == s.retired || EvictedInto(s, a, s', b)
    ensures x in s.retired ==> Advances(Round(s.retired, cursor), Round(s'.retired, cursor), 0, b.evictions - a.evictions, x)
  {
    hide Advances, IndexOf, Left, Ahead, NoDup, AllBack;
    if x in s.retired {
      if s'.retired == s.retired {
        StandsStill(Round(s.retired, cursor), x);
        AdvancesLoosely(Round(s.retired, cursor), Round(s.retired, cursor), 0, 0, b.evictions - a.evictions, x);
      } else {
        EvictionAdvances(Round(s.retired, cursor), s.active[|s.active| - 1], x);
      }
    }
  }

  // One operation at a time; `x` is any page.

  method PerformAdd(c: ClassPageList, p: PageId, n: nat, gen: nat, ghost x: PageId)
    requires c.Valid() && p !in c.w.pages && 0 < n < WORD
    modifies c, c.active, c.retired, c.Repr
    ensures c.Valid() && fresh(c.Repr - old(c.Repr)) && old(c.Repr) <= c.Repr
    ensures Effect(old(c.w), AddPage(p, n, gen), c.w)
    ensures c.looked == old(c.looked) && c.stats.Promoted() == old(c.stats.Promoted()) && old(c.trace) <= c.trace
    ensures c.stats.evictions >= old(c.stats.evictions) && c.stats.harvestCalls == old(c.stats.harvestCalls)
    ensures x in old(c.w.retired) ==> Advances(old(c.Rotation()), c.Rotation(), 0, c.stats.evictions - old(c.stats.evictions), x)
  {
    hide CanRun, Run, Tally, Sublist.Chained, ClassPageList.Linked, ClassPageList.Named, Balanced, Advances;
    c.LinkedInRepr();
    c.RotationFacts();
    var page := new PageNode(p);
    c.Add(page, n, gen);
    ArrivalAdvances(old(c.w), old(c.stats), c.w, c.stats, c.Cur(), x);
  }

  method PerformFree(c: ClassPageList, op: Op, ghost x: PageId)
    requires c.Valid() && Possible(c.w, op) && op.FreeIn?
    modifies c, c.active, c.retired, c.Repr
    ensures c.Valid() && c.Repr == old(c.Repr)
    ensures c.stats.evictions == old(c.stats.evictions) && c.stats.harvestCalls == old(c.stats.harvestCalls)
    ensures c.looked == old(c.looked) && c.stats.Promoted() == old(c.stats.Promoted()) && old(c.trace) <= c.trace
    ensures Effect(old(c.w), op, c.w)
    ensures x in old(c.w.retired) && x in c.w.retired ==> Advances(old(c.Rotation()), c.Rotation(), 0, 0, x)
  {
    hide CanRun, Run, Tally, Sublist.Chained, ClassPageList.Linked, ClassPageList.Named, Balanced, Advances, Quiet, Elsewhere, Moves;
    c.LinkedInRepr();
    c.RotationFacts();
    c.HasNode(op.addr);
    ghost var before := c.Rotation();
    var done := c.FreeSlot(c.nodeAt[op.addr], op.slot, op.slotSize);
    TakenOrNot(before, op.addr, c.Rotation(), done, x);
  }

  method PerformReclaim(c: ClassPageList, op: Op, ghost x: PageId)
    requires c.Valid() && Possible(c.w, op) && op.ReclaimIdle?
    modifies c, c.active, c.retired, c.Repr
    ensures c.Valid() && c.Repr == old(c.Repr)
    ensures c.stats.evictions == old(c.stats.evictions) && c.stats.harvestCalls == old(c.stats.harvestCalls)
    ensures c.looked == old(c.looked) && c.stats.Promoted() == old(c.stats.Promoted()) && old(c.trace) <= c.trace
    ensures Effect(old(c.w), op, c.w)
    ensures x in old(c.w.retired) && x in c.w.retired ==> Advances(old(c.Rotation()), c.Rotation(), 0, 0, x)
  {
    hide CanRun, Run, Tally, Sublist.Chained, ClassPageList.Linked, ClassPageList.Named, Balanced, Advances, Quiet, Elsewhere, Moves;
    c.LinkedInRepr();
    c.RotationFacts();
    c.HasNode(op.addr);
    ghost var before := c.Rotation();
    var done := c.ReclaimAfterLocalFree(c.nodeAt[op.addr], op.slotSize);
    TakenOrNot(before, op.addr, c.Rotation(), done, x);
  }

  lemma TakenOrNot(a: Round, p: PageId, b: Round, taken: bool, x: PageId)
    requires CursorOk(a) && NoDup(a.retired) && if taken then p in a.retired && b == Removed(a, p) else b == a
    ensures x in a.retired && x in b.retired ==> Advances(a, b, 0, 0, x)
  {
    if taken {
      RemovalFollows(a, p, b, x);
    } else if x in a.retired {
      StandsStill(a, x);
    }
  }

  /** The operations that do not concern `retired`. */
  method PerformOther(c: ClassPageList, op: Op)
    requires c.Valid() && Possible(c.w, op) && (op.AllocFrom? || op.FindPage? || op.WaitAWhile?)
    modifies c, c.active, c.retired, c.Repr
    ensures c.Valid() && c.Repr == old(c.Repr) && c.Rotation() == old(c.Rotation()) && c.stats == old(c.stats)
    ensures c.looked == old(c.looked) && old(c.trace) <= c.trace && Effect(old(c.w), op, c.w)
  {
    hide CanRun, Run, Tally, Sublist.Chained, ClassPageList.Linked, ClassPageList.Named, Balanced;
    c.LinkedInRepr();
    if op.AllocFrom? {
      c.HasNode(op.addr);
      c.AllocSlot(c.nodeAt[op.addr], op.slot);
    } else if op.FindPage? {
      ghost var at;
      var page;
      page, at := c.FindWithCapacity();
      if page != null { assert Found(old(c.w), at, c.w); }
    } else {
      c.Wait();
    }
  }

  method PerformHarvest(c: ClassPageList, ghost x: PageId) returns (r: PageNode?, ghost examined: seq<PageId>, ghost gone: seq<PageId>)
    requires c.Valid()
    modifies c, c.active, c.retired, c.Repr
    ensures c.Valid() && c.Repr == old(c.Repr) && old(c.trace) <= c.trace
    ensures c.stats.evictions >= old(c.stats.evictions) && c.stats.harvestCalls == old(c.stats.harvestCalls) + 1
    ensures c.looked == old(c.looked) + examined && c.stats.Misses() == old(c.stats.Misses()) + (if r == null then 1 else 0)
    ensures |examined| <= SWEEP_BUDGET && (r == null && x in c.w.retired ==> examined != [])
    ensures NextInRound(RemovedAll(old(c.Rotation()), gone), examined)
    ensures if r == null then c.w.active == old(c.w.active) && Sweep(RemovedAll(old(c.Rotation()), gone), c.Rotation(), SWEEP_BUDGET, examined)
            else c.Served(r) && c.w.active == Fitted(r.addr, old(c.w.active)) && r.addr in old(c.w.retired)
    ensures r == null ==> Onward(old(c.w), c.w, x) && (x in examined && x in old(c.w.pages) && Offers(old(c.w.pages)[x]) ==> !Tracked(c.w, x))
    ensures Due(old(c.w), x) && x in examined ==> x !in c.w.retired
    ensures x in old(c.w.retired) && x in c.w.retired && x !in examined ==>
              Advances(old(c.Rotation()), c.Rotation(), |examined|, c.stats.evictions - old(c.stats.evictions), x)
  {
    hide CanRun, Run, Tally, Sublist.Chained, ClassPageList.Linked, ClassPageList.Named, Balanced, Advances;
    hide Sweep, NextInRound, RemovedAll, Due, Onward, Offers, Quiet, Elsewhere;
    c.LinkedInRepr();
    r, examined, gone := c.Harvest(x);
  }

  method Perform(c: ClassPageList, op: Op, ghost x: PageId) returns (ghost o: Outcome)
    requires c.Valid()
    modifies c, c.active, c.retired, c.Repr
    ensures c.Valid() && fresh(c.Repr - old(c.Repr)) && old(c.Repr) <= c.Repr && old(c.trace) <= c.trace
    ensures o.round == c.Rotation() && c.stats.evictions == old(c.stats.evictions) + o.evicted
    ensures c.stats.harvestCalls == old(c.stats.harvestCalls) + (if op.HarvestPage? then 1 else 0)
    ensures c.looked == old(c.looked) + o.examined && c.stats.Misses() == old(c.stats.Misses()) + (if o.missed then 1 else 0)
    ensures Effect(old(c.w), op, c.w)
    ensures if op.HarvestPage? then NextInRound(RemovedAll(old(c.Rotation()), o.gone), o.examined) else o.examined == [] && !o.missed
    ensures o.missed ==> c.w.active == old(c.w.active) && Sweep(RemovedAll(old(c.Rotation()), o.gone), c.Rotation(), SWEEP_BUDGET, o.examined)
    ensures op.HarvestPage? && !o.missed ==>
              && c.w.active != [] && c.w.active == Fitted(c.w.active[0], old(c.w.active)) && c.w.active[0] in old(c.w.retired)
              && c.w.active[0] in c.w.pages && HasCapacity(c.w.pages[c.w.active[0]])
    ensures o.missed ==> Onward(old(c.w), c.w, x) && (x in o.examined && x in old(c.w.pages) && Offers(old(c.w.pages)[x]) ==> !Tracked(c.w, x))
    ensures Due(old(c.w), x) && x in o.examined ==> x !in c.w.retired
    ensures Fair(old(c.Rotation()), o, x)
  {
    hide CanRun, Run, Tally, ClassPageList.Coherent, Balanced, Advances, Sweep, NextInRound, RemovedAll, Due, Onward, Offers, Quiet, Elsewhere;
    ghost var examined, gone, missed := [], [], false;
    RestsInPlace(c, x);
    if Possible(c.w, op) {
      match op {
        case AddPage(p, n, gen) => PerformAdd(c, p, n, gen, x);
        case FreeIn(_, _, _) => PerformFree(c, op, x);
        case ReclaimIdle(_, _) => PerformReclaim(c, op, x);
        case HarvestPage =>
          var page;
          page, examined, gone := PerformHarvest(c, x);
          missed := page == null;
        case _ => PerformOther(c, op);
      }
    }
    o := Outcome(c.Rotation(), gone, examined, c.stats.evictions - old(c.stats.evictions), missed);
  }

  lemma RestsInPlace(c: ClassPageList, x: PageId)
    requires c.Valid()
    ensures x in c.w.retired ==> Advances(c.Rotation(), c.Rotation(), 0, 0, x)
  {
    c.RotationFacts();
    if x in c.w.retired { StandsStill(c.Rotation(), x); }
  }

  // Any sequence of operations.

  /** No operation has removed or examined `x`. */
  ghost predicate StillWaiting(log: seq<Outcome>, x: PageId) {
    forall o :: o in log ==> x in o.round.retired && x !in o.examined
  }

  /** The harvests that came back empty-handed. */
  function Misses(log: seq<Outcome>): nat {
    if log == [] then 0 else Misses(log[..|log| - 1]) + (if log[|log| - 1].missed then 1 else 0)
  }

  function Harvests(ops: seq<Op>): nat {
    if ops == [] then 0 else Harvests(ops[..|ops| - 1]) + (if ops[|ops| - 1].HarvestPage? then 1 else 0)
  }

  function Examined(log: seq<Outcome>): (r: seq<nat>)
    ensures |r| == |log| && forall i :: 0 <= i < |log| ==> r[i] == |log[i].examined|
  {
    seq(|log|, i requires 0 <= i < |log| => |log[i].examined|)
  }

  function Evictions(log: seq<Outcome>): (r: seq<nat>)
    ensures |r| == |log| && forall i :: 0 <= i < |log| ==> r[i] == log[i].evicted
  {
    seq(|log|, i requires 0 <= i < |log| => log[i].evicted)
  }

  function RoundBefore(start: Round, log: seq<Outcome>, i: nat): Round
    requires i <= |log|
  {
    if i == 0 then start else log[i - 1].round
  }

  ghost predicate AllFair(start: Round, log: seq<Outcome>, x: PageId) {
    forall i :: 0 <= i < |log| ==> Fair(RoundBefore(start, log, i), log[i], x)
  }

  lemma FairLonger(start: Round, log: seq<Outcome>, o: Outcome, x: PageId)
    requires AllFair(start, log, x) && Fair(RoundBefore(start, log, |log|), o, x)
    ensures AllFair(start, log + [o], x)
  {
    hide Fair;
    var all := log + [o];
    forall i | 0 <= i < |all| ensures Fair(RoundBefore(start, all, i), all[i], x) {
      if i < |log| {
        assert Fair(RoundBefore(start, log, i), log[i], x);
      }
    }
  }

  lemma EvictionsLonger(log: seq<Outcome>, o: Outcome)
    ensures Sum(Evictions(log + [o])) == Sum(Evictions(log)) + o.evicted
  {
    assert Evictions(log + [o]) == Evictions(log) + [o.evicted];
    assert (Evictions(log) + [o.evicted])[..|log|] == Evictions(log);
  }

  lemma ExaminedLast(log: seq<Outcome>)
    requires log != []
    ensures Sum(Examined(log)) == Sum(Examined(log[..|log| - 1])) + |log[|log| - 1].examined|
  {
    assert Examined(log)[..|log| - 1] == Examined(log[..|log| - 1]);
  }

  lemma FairPrefix(start: Round, log: seq<Outcome>, x: PageId, n: nat)
    requires AllFair(start, log, x) && StillWaiting(log, x) && n <= |log|
    ensures AllFair(start, log[..n], x) && StillWaiting(log[..n], x)
  {
    hide Fair;
    forall i | 0 <= i < n ensures Fair(RoundBefore(start, log[..n], i), log[..n][i], x) {
      assert Fair(RoundBefore(start, log, i), log[i], x);
    }
  }

  /** A page that is still waiting was waiting through each operation. */
  lemma WaitedThrough(start: Round, log: seq<Outcome>, x: PageId, i: nat)
    requires x in start.retired && StillWaiting(log, x) && i < |log|
    ensures Waits(RoundBefore(start, log, i), log[i], x)
  {
    assert log[i] in log;
    if i > 0 { assert log[i - 1] in log; }
  }

  /** Every miss examined a page, since `x` was there to examine. */
  lemma {:induction false} MissesExamine(start: Round, log: seq<Outcome>, x: PageId)
    requires x in start.retired && AllFair(start, log, x) && StillWaiting(log, x)
    ensures Misses(log) <= Sum(Examined(log))
    decreases |log|
  {
    hide AllFair, StillWaiting, Examined, Sum, Advances, Waits;
    if log != [] {
      var n := |log| - 1;
      FairPrefix(start, log, x, n);
      MissesExamine(start, log[..n], x);
      ExaminedLast(log);
      WaitedThrough(start, log, x, n);
      assert Fair(RoundBefore(start, log, n), log[n], x) by { FairAt(start, log, x, n); }
    }
  }

  lemma FairAt(start: Round, log: seq<Outcome>, x: PageId, i: nat)
    requires AllFair(start, log, x) && i < |log|
    ensures Fair(RoundBefore(start, log, i), log[i], x)
  {}

  /** No head-of-line blocking: while `x` waits, the harvests that come back
      empty-handed number at most the pages that were ahead of it, plus, for a
      page behind the cursor, the evictions meanwhile. */
  lemma MissesAreBounded(start: Round, log: seq<Outcome>, x: PageId)
    requires CursorOk(start) && x in start.retired && AllFair(start, log, x) && StillWaiting(log, x)
    ensures Misses(log) <= Ahead(start, x) + (if InRound(start, x) then 0 else Sum(Evictions(log)))
  {
    hide Advances, Ahead, AllFair, StillWaiting, Waits, Sum;
    var rounds := seq(|log| + 1, i requires 0 <= i <= |log| => RoundBefore(start, log, i));
    forall i | 0 <= i < |log| ensures Advances(rounds[i], rounds[i + 1], Examined(log)[i], Evictions(log)[i], x) {
      FairAt(start, log, x, i);
      WaitedThrough(start, log, x, i);
    }
    ExaminedInTime(rounds, Examined(log), Evictions(log), x);
    MissesExamine(start, log, x);
  }

  // A page that is due is not examined as long as it stays.

  /** Through every step since the first `from`, `x` has been retired. */
  ghost predicate StaysRetired(es: seq<Event>, from: nat, x: PageId) {
    forall n :: from <= n <= |es| ==> CanRun(INIT, es[..n]) && x in Run(INIT, es[..n]).retired
  }

  lemma StayedRetired(a: seq<Event>, b: seq<Event>, from: nat, x: PageId)
    requires a <= b && StaysRetired(b, from, x)
    ensures StaysRetired(a, from, x)
    ensures from <= |a| ==> CanRun(INIT, a) && x in Run(INIT, a).retired
  {
    hide CanRun, Run;
    forall n | from <= n <= |a| ensures CanRun(INIT, a[..n]) && x in Run(INIT, a[..n]).retired { assert a[..n] == b[..n]; }
    assert a[..|a|] == a;
  }

  /** Due, or just about to be taken out of `retired`. */
  ghost predicate OnItsWay(s: State, x: PageId) {
    x in s.pages && AllBack(s.pages[x].slots) && (s.pages[x].flag || s.hold == Cancelled(x))
  }

  lemma StillOnItsWay(es: seq<Event>, e: Event, x: PageId)
    requires CanRun(INIT, es) && CanRun(INIT, es + [e]) && Enabled(Run(INIT, es), e) && Run(INIT, es + [e]) == Apply(Run(INIT, es), e)
    requires OnItsWay(Run(INIT, es), x) && x in Run(INIT, es).retired && x in Run(INIT, es + [e]).retired
    ensures OnItsWay(Run(INIT, es + [e]), x)
  {
    hide CanRun, Run, AllBack;
    var s := Run(INIT, es);
    ReachableInv(es);
    ReachableListsDisjoint(es, x);
    ReachableListsDisjoint(es + [e], x);
    if Remote(e) {
      RemoteSparesIdle(s, e, x);
      RemoteFields(s, e);
    } else {
      OwnerStepOnItsWay(s, e, x);
    }
  }

  lemma OwnerStepOnItsWay(s: State, e: Event, x: PageId)
    requires Enabled(s, e) && !Remote(e) && OnItsWay(s, x) && NoDup(s.retired)
    requires x in s.retired && x in Apply(s, e).retired && x in Apply(s, e).pages && s.pages[x].kind == InRetired
    ensures OnItsWay(Apply(s, e), x)
  {
    match e
    case Unlink => WithoutElements(s.retired, s.hold.page);
    case Drain(p, k) => if p == x { MergedBack(s.pages[x].slots, k); }
    case _ =>
  }

  lemma {:induction false} DueStays(es: seq<Event>, from: nat, x: PageId)
    requires from <= |es| && StaysRetired(es, from, x) && Due(Run(INIT, es[..from]), x)
    ensures CanRun(INIT, es) && OnItsWay(Run(INIT, es), x)
    decreases |es|
  {
    hide StaysRetired;
    StayedRetired(es, es, from, x);
    if from == |es| {
      assert es[..from] == es;
    } else {
      var before := es[..|es| - 1];
      StayedRetired(before, es, from, x);
      assert before[..from] == es[..from];
      DueStays(before, from, x);
      assert es == before + [es[|es| - 1]];
      StillOnItsWay(before, es[|es| - 1], x);
    }
  }

  /** Any sequence of operations of the owner, whatever other threads do: the
      class stays valid, and no retired page is overlooked for long. As long as
      `x` stays in `retired` and no sweep looks at it, the harvests that come
      back empty-handed number at most the pages that were ahead of it, plus,
      for a page behind the cursor, the evictions meanwhile. For a tracked page
      whose objects are all back, staying is enough: no sweep looks at it. */
  method RunOps(c: ClassPageList, ops: seq<Op>, ghost x: PageId)
    requires c.Valid() && x in c.w.retired
    modifies c, c.active, c.retired, c.Repr
    ensures c.Valid() && fresh(c.Repr - old(c.Repr)) && old(c.trace) <= c.trace && old(c.looked) <= c.looked
    ensures c.stats.harvestCalls == old(c.stats.harvestCalls) + Harvests(ops)
    ensures CursorOk(old(c.Rotation()))
    ensures StaysRetired(c.trace, |old(c.trace)|, x) && (x !in c.looked[|old(c.looked)|..] || Due(old(c.w), x)) ==>
              && x !in c.looked[|old(c.looked)|..]
              && c.stats.Misses() - old(c.stats.Misses())
                 <= Ahead(old(c.Rotation()), x) + (if InRound(old(c.Rotation()), x) then 0 else c.stats.evictions - old(c.stats.evictions))
  {
    hide CanRun, Run, Tally, ClassPageList.Coherent, Balanced, AllFair, Fair, StillWaiting, Evictions, StaysRetired;
    hide Due, Effect, NextInRound, RemovedAll, Sweep, Sum, Misses, Harvests, Ahead, InRound, CursorOk;
    ghost var start, es, s, before := c.Rotation(), c.trace, c.w, c.looked;
    c.RotationFacts();
    TraceRuns(c);
    ghost var log: seq<Outcome> := [];
    NothingLogged(start, x);
    for i := 0 to |ops|
      invariant c.Valid() && fresh(c.Repr - old(c.Repr)) && es <= c.trace && before <= c.looked
      invariant |log| == i && RoundBefore(start, log, i) == c.Rotation() && AllFair(start, log, x)
      invariant c.stats.evictions == old(c.stats.evictions) + Sum(Evictions(log))
      invariant c.stats.Misses() == old(c.stats.Misses()) + Misses(log)
      invariant c.stats.harvestCalls == old(c.stats.harvestCalls) + Harvests(ops[..i])
      invariant StaysRetired(c.trace, |es|, x) ==> Overlooked(s, c.w, log, c.looked[|before|..], x)
    {
      ghost var trace, here, looked := c.trace, c.w, c.looked;
      ghost var o := Perform(c, ops[i], x);
      if StaysRetired(c.trace, |es|, x) {
        StayedRetired(trace, c.trace, |es|, x);
        StillThere(c, es, s, x);
        assert c.looked[|before|..] == looked[|before|..] + o.examined;
        StillOverlooked(s, here, c.w, log, looked[|before|..], o, x);
      }
      LoggedOne(start, log, o, x);
      HarvestsLonger(ops, i);
      log := log + [o];
    }
    assert ops[..|ops|] == ops;
    if StaysRetired(c.trace, |es|, x) && StillWaiting(log, x) {
      MissesAreBounded(start, log, x);
    }
  }

  /** Since `s`, sweeps have looked at `looked`. */
  ghost predicate Overlooked(s: State, s': State, log: seq<Outcome>, looked: seq<PageId>, x: PageId) {
    (x !in looked ==> StillWaiting(log, x)) && (Due(s, x) ==> x !in looked && Due(s', x))
  }

  lemma StillOverlooked(s: State, here: State, s': State, log: seq<Outcome>, looked: seq<PageId>, o: Outcome, x: PageId)
    requires Overlooked(s, here, log, looked, x) && x in o.round.retired && o.round.retired == s'.retired && (Due(s, x) ==> Due(s', x))
    requires Due(here, x) && x in o.examined ==> x !in s'.retired
    ensures Overlooked(s, s', log + [o], looked + o.examined, x)
  {
    hide Due;
  }

  lemma TraceRuns(c: ClassPageList)
    requires c.Valid()
    ensures CanRun(INIT, c.trace) && Run(INIT, c.trace) == c.w
  {}

  lemma StillThere(c: ClassPageList, es: seq<Event>, s: State, x: PageId)
    requires c.Valid() && es <= c.trace && StaysRetired(c.trace, |es|, x) && CanRun(INIT, es) && Run(INIT, es) == s
    ensures x in c.w.retired && (Due(s, x) ==> Due(c.w, x))
  {
    hide CanRun, Run, Tally, StaysRetired;
    assert c.trace[..|es|] == es;
    StayedRetired(c.trace, c.trace, |es|, x);
    if Due(s, x) { DueStays(c.trace, |es|, x); }
  }

  lemma LoggedOne(start: Round, log: seq<Outcome>, o: Outcome, x: PageId)
    requires AllFair(start, log, x) && Fair(RoundBefore(start, log, |log|), o, x)
    ensures AllFair(start, log + [o], x)
    ensures Sum(Evictions(log + [o])) == Sum(Evictions(log)) + o.evicted
    ensures Misses(log + [o]) == Misses(log) + (if o.missed then 1 else 0)
  {
    FairLonger(start, log, o, x);
    EvictionsLonger(log, o);
    assert (log + [o])[..|log|] == log;
  }

  lemma HarvestsLonger(ops: seq<Op>, i: nat)
    requires i < |ops|
    ensures Harvests(ops[..i + 1]) == Harvests(ops[..i]) + (if ops[i].HarvestPage? then 1 else 0)
  {
    assert ops[..i + 1][..i] == ops[..i];
  }

  lemma NothingLogged(start: Round, x: PageId)
    ensures AllFair(start, [], x) && Sum(Evictions([])) == 0 && Misses([]) == 0 && Harvests([]) == 0 && StillWaiting([], x)
  {}

  // A whole round of the sweep.

  lemma RoundGoesOn(rounds: seq<Round>, b: Round, examined: seq<seq<PageId>>, e: seq<PageId>)
    requires Sweeps(rounds, SWEEP_BUDGET, examined) && NoDup(b.retired)
    requires examined == [] || rounds[|examined|].cursor != AtTail
    requires Sweep(rounds[|examined|], b, SWEEP_BUDGET, e)
    ensures Sweeps(rounds + [b], SWEEP_BUDGET, examined + [e])
  {
    hide Sweep, NoDup;
    var rs, es := rounds + [b], examined + [e];
    forall i | 0 <= i < |es| ensures Sweep(rs[i], rs[i + 1], SWEEP_BUDGET, es[i]) {
      if i < |examined| {
        assert Sweep(rounds[i], rounds[i + 1], SWEEP_BUDGET, examined[i]);
      }
    }
  }

  lemma FlatLonger(xs: seq<seq<PageId>>, ys: seq<PageId>)
    ensures Flat(xs + [ys]) == Flat(xs) + ys
  {
    assert (xs + [ys])[..|xs|] == xs;
  }

  /** One more sweep of the round. */
  lemma DueThroughWalk(s: State, here: State, s': State, seen: seq<PageId>, e: seq<PageId>, x: PageId)
    requires DueSwept(s, here, seen, x) && (x in s'.retired ==> x in here.retired)
    requires (Due(here, x) && x in e ==> x !in s'.retired) && (x !in e ==> DueKept(here, s', x))
    requires Onward(here, s', x) && (x in e && x in here.pages && Offers(here.pages[x]) ==> !Tracked(s', x))
    ensures DueSwept(s, s', seen + e, x)
  {
    hide Offers;
  }

  /** Walks until the cursor comes back to where it started, or a walk promotes
      a page. If none does, ceil(n / SWEEP_BUDGET) walks have examined each of
      the n pages exactly once, tail first, whatever other threads did; and a
      tracked page whose objects were all back is gone. `x` is any page. */
  method WalkRound(c: ClassPageList, ghost x: PageId) returns (r: PageNode?)
    requires c.Valid() && c.cursor == null && c.w.retired != []
    modifies c, c.active, c.retired, c.Repr
    ensures c.Valid() && (r != null ==> c.Served(r)) && old(c.trace) <= c.trace
    ensures r == null ==> c.cursor == null && c.looked == old(c.looked) + Reversed(old(c.w.retired))
    ensures r == null ==> (c.walks - old(c.walks) - 1) * SWEEP_BUDGET < |old(c.w.retired)| <= (c.walks - old(c.walks)) * SWEEP_BUDGET
    ensures r == null ==> c.stats.Promoted() == old(c.stats.Promoted()) && c.w.active == old(c.w.active)
    ensures r == null && Due(old(c.w), x) ==> x !in c.w.retired
    ensures r == null && x in old(c.w.retired) && x in old(c.w.pages) && Offers(old(c.w.pages)[x]) ==> !Tracked(c.w, x)
    ensures r != null ==> old(c.looked) <= c.looked && c.looked != [] && r.addr == c.looked[|c.looked| - 1]
  {
    hide CanRun, Run, Tally, ClassPageList.Coherent, Balanced, Sweep, Advances, DueSwept, DueKept, Due, Flat, NextInRound, Onward, Offers, Quiet, Elsewhere;
    ghost var n, s := |c.w.retired|, c.w;
    ghost var rounds, examined := [c.Rotation()], [];
    r := null;
    c.RotationFacts();
    NothingFlat(s, x);
    var more := true;
    while more
      invariant c.Valid() && c.Repr == old(c.Repr) && old(c.trace) <= c.trace
      invariant Sweeps(rounds, SWEEP_BUDGET, examined) && rounds[0] == old(c.Rotation()) && rounds[|examined|] == c.Rotation()
      invariant r == null && (more <==> examined == [] || c.cursor != null)
      invariant c.looked == old(c.looked) + Flat(examined) && c.walks == old(c.walks) + |examined|
      invariant c.stats.Promoted() == old(c.stats.Promoted()) && c.w.active == old(c.w.active)
      invariant DueSwept(s, c.w, Flat(examined), x) && (x in c.w.retired ==> x in s.retired)
      decreases n - |examined| * SWEEP_BUDGET
    {
      c.LinkedInRepr();
      if examined != [] { FullRound(rounds, SWEEP_BUDGET, examined); }
      ghost var here := c.w;
      ghost var e;
      r, e := c.Walk(x);
      if r != null {
        return;
      }
      c.RotationFacts();
      RoundGoesOn(rounds, c.Rotation(), examined, e);
      DueThroughWalk(s, here, c.w, Flat(examined), e, x);
      FlatLonger(examined, e);
      rounds, examined := rounds + [c.Rotation()], examined + [e];
      more := c.cursor != null;
    }
    FullRound(rounds, SWEEP_BUDGET, examined);
    RoundDone(s, c.w, x);
  }

  lemma NothingFlat(s: State, x: PageId)
    ensures Flat([]) == [] && DueSwept(s, s, [], x)
  {}

  lemma RoundDone(s: State, s': State, x: PageId)
    requires DueSwept(s, s', Reversed(s.retired), x) && (x in s'.retired ==> x in s.retired)
    ensures Due(s, x) ==> x !in s'.retired
    ensures x in s.retired && x in s.pages && Offers(s.pages[x]) ==> !Tracked(s', x)
  {
    if x in s.retired {
      var i :| 0 <= i < |s.retired| && s.retired[i] == x;
      assert Reversed(s.retired)[|s.retired| - 1 - i] == x;
    }
  }
}
