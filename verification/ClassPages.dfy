/** The owner's two page lists as the program keeps them: intrusive doubly
    linked lists on the heap, a persistent sweep cursor and plain counters.
    The words that other threads write live in `w`; before each atomic
    operation of the owner, other threads may have run any number of steps. */
module ClassPages {
  import opened Basics
  import opened ReadyProtocol
  import opened ReadyInvariant
  import opened ReadySafety
  import opened SweepRotation
  import opened PageLists
  import opened ClassCounters
  import opened ClassFacts

  const SWEEP_BUDGET: nat := 4
  const MIN_SLOT_SIZE: nat := 80
  const MAX_SLOT_SIZE: nat := 4096

  class ClassPageList {
    const moveToFront: bool
    const active: Sublist
    const retired: Sublist
    var cursor: PageNode?
    var w: State
    var nodeAt: map<PageId, PageNode>
    var stats: Stats
    ghost var trace: seq<Event>
    ghost var tally: Tallies
    /** The pages that sweeps have examined, and how many sweeps there were. */
    ghost var looked: seq<PageId>
    ghost var walks: nat
    ghost var Repr: set<PageNode>

    constructor (moveToFront: bool)
      ensures Valid() && this.moveToFront == moveToFront && w == INIT && fresh(active) && fresh(retired) && Repr == {} && looked == [] && walks == 0
    {
      hide CanRun, Run, Tally, Sublist.Chained, Balanced;
      this.moveToFront := moveToFront;
      active := new Sublist();
      retired := new Sublist();
      cursor, Repr, looked, walks := null, {}, [], 0;
      w, nodeAt, trace, tally, stats := INIT, map[], [], Tallies(0, 0), Stats(0, 0, 0, 0, 0, 0, 0, 0, 0, 0, 0, 0, 0);
      new;
      EmptyRun();
      EmptyIsBalanced(stats, w, tally);
    }

    /** Both lists are well linked and disjoint; the cursor is in `retired`. */
    ghost predicate Linked()
      reads this`cursor, active, retired, active.nodes, retired.nodes
    {
      && active != retired && active.Valid() && retired.Valid()
      && (forall n :: n in active.nodes ==> n !in retired.nodes)
      && (cursor != null ==> cursor in retired.nodes)
    }

    /** The lists link exactly the pages of the abstract lists, in order, and
        only structs that have come into the class. */
    ghost predicate Named()
      reads this`w, this`nodeAt, this`Repr, active, retired
    {
      && Names(active.nodes, w.active, nodeAt) && Names(retired.nodes, w.retired, nodeAt)
      && nodeAt.Keys == w.pages.Keys
      && (forall p :: p in nodeAt ==> nodeAt[p].addr == p && nodeAt[p] in Repr)
    }

    ghost predicate Coherent()
      reads this`cursor, this`w, this`nodeAt, this`trace, this`tally, this`Repr, active, retired, active.nodes, retired.nodes
    {
      active != retired && Linked() && Named() && Reached()
    }

    /** Between operations: coherent, nothing in hand, `active` within the scan
        limit, and every page accounted for. */
    ghost predicate Valid()
      reads this`cursor, this`w, this`nodeAt, this`trace, this`tally, this`stats, this`Repr, active, retired, active.nodes, retired.nodes
    {
      Coherent() && w.hold == Nothing && |w.active| <= SCAN_LIMIT && Counted(0)
    }

    ghost predicate Counted(inHand: nat)
      reads this`w, this`stats, this`tally
    {
      Balanced(stats, w, tally, inHand)
    }

    ghost function Cur(): Cursor
      reads this`cursor
    {
      if cursor == null then AtTail else At(cursor.addr)
    }

    /** `w` is what the program's steps so far have made of the empty class. */
    ghost predicate Reached()
      reads this`w, this`trace, this`tally
    {
      CanRun(INIT, trace) && Run(INIT, trace) == w && Tally(trace) == tally
    }

    method Do(e: Event)
      requires Reached() && Enabled(w, e)
      modifies this`w, this`trace, this`tally
      ensures Reached() && w == Apply(old(w), e) && trace == old(trace) + [e]
      ensures Did(old(trace), trace, if Remote(e) then [] else [e])
      ensures e != Mark ==> Pending(w) <= Pending(old(w))
      ensures tally.creates == old(tally).creates + (if e.Create? then 1 else 0)
      ensures |w.retired| <= |old(w).retired| ==> tally.peak == old(tally).peak
      ensures tally.peak == if |w.retired| > old(tally).peak then |w.retired| else old(tally).peak
    {
      hide Pending;
      if e != Mark { PendingAfter(trace, e); }
      RunOne(w, e);
      RunAppend(INIT, trace, [e]);
      PeakBounds(trace);
      assert (trace + [e])[..|trace + [e]| - 1] == trace;
      w := Apply(w, e);
      DidOne(trace, trace, [], e);
      trace := trace + [e];
      tally := Tally(trace);
    }

    /** Any number of steps of any other threads. */
    method Interfere()
      requires Reached()
      modifies this`w, this`trace, this`tally
      ensures Did(old(trace), trace, [])
      ensures Reached() && Quiet(old(w), w) && tally == old(tally)
    {
      hide CanRun, Run, Tally, Pending, Quiet, Moves;
      var steps: nat := *;
      QuietAtOnce(w);
      while steps > 0
        invariant Did(old(trace), trace, [])
        invariant Reached() && Quiet(old(w), w) && tally == old(tally)
      {
        var e: Event := *;
        if Remote(e) && Enabled(w, e) {
          ghost var before := w;
          RemoteQuiet(trace, e);
          Do(e);
          QuietTrans(old(w), before, w);
        }
        steps := steps - 1;
      }
    }

    ghost function Rotation(): Round
      reads this`w, this`cursor
    {
      Round(w.retired, Cur())
    }

    /** `page` heads `active` and has a slot to hand out. */
    ghost predicate Served(page: PageNode)
      reads this`w, this`nodeAt
    {
      w.active != [] && w.active[0] == page.addr && page.addr in w.pages && page.addr in nodeAt && nodeAt[page.addr] == page
      && HasCapacity(w.pages[page.addr])
    }

    // Single list moves; each is one step of the protocol.

    /** Any removal from `retired` first moves a cursor that points at the node. */
    method UnlinkRetired(node: PageNode) returns (ghost at: nat)
      requires Linked() && node in retired.nodes
      modifies this`cursor, retired, retired.nodes
      ensures Linked() && at < |old(retired.nodes)| && old(retired.nodes)[at] == node
      ensures retired.nodes == old(retired.nodes)[..at] + old(retired.nodes)[at + 1..] && node !in retired.nodes && node !in active.nodes
      ensures cursor == if old(cursor) == node then (if at == 0 then null else old(retired.nodes)[at - 1]) else old(cursor)
    {
      if cursor == node {
        cursor := node.prev;
      }
      at := retired.Remove(node);
      assert forall n :: n in active.nodes ==> n.prev == old(n.prev) && n.next == old(n.next);
    }

    method LinkActive(node: PageNode)
      requires Linked() && node !in active.nodes && node !in retired.nodes
      modifies active, active.nodes, node
      ensures Linked() && active.nodes == [node] + old(active.nodes)
    {
      active.Prepend(node);
      assert forall n :: n in retired.nodes ==> n.prev == old(n.prev) && n.next == old(n.next);
    }

    method LinkRetired(node: PageNode)
      requires Linked() && node !in active.nodes && node !in retired.nodes
      modifies retired, retired.nodes, node
      ensures Linked() && retired.nodes == [node] + old(retired.nodes)
    {
      retired.Prepend(node);
      assert forall n :: n in active.nodes ==> n.prev == old(n.prev) && n.next == old(n.next);
    }

    method UnlinkActiveTail() returns (node: PageNode)
      requires Linked() && active.nodes != []
      modifies active, active.nodes
      ensures Linked() && old(active.nodes) == active.nodes + [node]
      ensures node !in active.nodes && node !in retired.nodes
    {
      ghost var before := active.nodes;
      node := active.PopTail();
      assert node == before[|before| - 1] && node in before;
      assert forall i :: 0 <= i < |active.nodes| ==> active.nodes[i] == before[i];
      assert forall n :: n in retired.nodes ==> n.prev == old(n.prev) && n.next == old(n.next);
    }

    method RetiredRemove(node: PageNode) returns (ghost at: nat)
      requires Coherent() && node in retired.nodes && CanUnlink(w) && w.hold.page == node.addr
      modifies this`cursor, this`w, this`trace, this`tally, retired, retired.nodes
      ensures Did(old(trace), trace, [Unlink])
      ensures Coherent() && w == DoUnlink(old(w)) && Pending(w) <= Pending(old(w))
      ensures at < |old(retired.nodes)| && old(retired.nodes)[at] == node
      ensures retired.nodes == old(retired.nodes)[..at] + old(retired.nodes)[at + 1..]
      ensures cursor == if old(cursor) == node then (if at == 0 then null else old(retired.nodes)[at - 1]) else old(cursor)
      ensures node !in active.nodes && node !in retired.nodes
      ensures tally == old(tally)
    {
      hide CanRun, Run, Tally, Pending, Sublist.Chained, Linked, Names, Without, Moves;
      ghost var nodes := retired.nodes;
      at := UnlinkRetired(node);
      ReachableRetiredNoDup(trace);
      NamesAt(nodes, w.retired, nodeAt, at);
      WithoutAt(w.retired, at);
      NamesSplice(nodes, w.retired, nodeAt, at);
      Do(Unlink);
    }

    method Destroy(node: PageNode)
      requires Coherent() && node !in active.nodes && node !in retired.nodes
      requires CanReclaim(w) && w.hold.page == node.addr && nodeAt[node.addr] == node
      modifies this`w, this`trace, this`tally, this`nodeAt
      ensures Did(old(trace), trace, [Reclaim])
      ensures Coherent() && w == DoReclaim(old(w)) && nodeAt == old(nodeAt) - {node.addr}
      ensures tally == old(tally) && Pending(w) <= Pending(old(w))
    {
      hide CanRun, Run, Tally, Pending, Sublist.Chained, Moves;
      Do(Reclaim);
      nodeAt := nodeAt - {node.addr};
    }

    method PrependActive(node: PageNode)
      requires Coherent() && node !in active.nodes && node !in retired.nodes
      requires CanActivate(w) && w.hold.page == node.addr && nodeAt[node.addr] == node
      modifies this`w, this`trace, this`tally, active, active.nodes, node
      ensures Did(old(trace), trace, [Activate])
      ensures Coherent() && w == DoActivate(old(w)) && active.nodes == [node] + old(active.nodes)
      ensures tally == old(tally)
    {
      hide CanRun, Run, Tally, Pending, Sublist.Chained, Moves;
      LinkActive(node);
      Do(Activate);
    }

    method PrependRetired(node: PageNode)
      requires Coherent() && node !in active.nodes && node !in retired.nodes
      requires CanRetire(w) && w.hold.page == node.addr && nodeAt[node.addr] == node
      modifies this`w, this`trace, this`tally, retired, retired.nodes, node
      ensures Did(old(trace), trace, [Retire])
      ensures Coherent() && w == DoRetire(old(w)) && retired.nodes == [node] + old(retired.nodes)
      ensures tally.creates == old(tally).creates
      ensures tally.peak == if |w.retired| > old(tally).peak then |w.retired| else old(tally).peak
    {
      hide CanRun, Run, Tally, Pending, Sublist.Chained, Moves;
      LinkRetired(node);
      Do(Retire);
    }

    method PopActiveTail() returns (node: PageNode)
      requires Coherent() && CanEvictTail(w)
      modifies this`w, this`trace, this`tally, this`stats, active, active.nodes
      ensures Did(old(trace), trace, [EvictTail])
      ensures stats == old(stats).(evictions := old(stats).evictions + 1)
      ensures Coherent() && w == DoEvictTail(old(w)) && old(active.nodes) == active.nodes + [node]
      ensures node !in active.nodes && node !in retired.nodes && node.addr == w.hold.page && nodeAt[node.addr] == node
      ensures tally == old(tally)
    {
      hide CanRun, Run, Tally, Pending, Sublist.Chained, Moves;
      node := UnlinkActiveTail();
      Do(EvictTail);
      stats := stats.(evictions := stats.evictions + 1);
    }

    method StripeIsEmpty(node: PageNode, stripe: nat) returns (empty: bool)
      requires node.addr in w.pages
      ensures empty == (Published(stripe) !in w.pages[node.addr].slots)
    {
      empty := Published(stripe) !in w.pages[node.addr].slots;
    }

    method ExchangeStripe(node: PageNode, stripe: nat) returns (merged: nat)
      requires Reached() && node.addr in w.pages
      modifies this`w, this`trace, this`tally
      ensures old(trace) <= trace
      ensures Reached() && QuietBut(old(w), w, node.addr) && tally == old(tally)
      ensures w.pages[node.addr].slots == Merged(old(w).pages[node.addr].slots, stripe) && w.pages[node.addr].flag == old(w).pages[node.addr].flag
      ensures w.pages[node.addr].freeCount == old(w).pages[node.addr].freeCount + merged
      ensures merged == 0 ==> Published(stripe) !in old(w).pages[node.addr].slots && w == old(w)
    {
      hide CanRun, Run, Tally, Pending, QuietBut;
      merged := Count(w.pages[node.addr].slots, Published(stripe));
      CountAll(w.pages[node.addr].slots, Published(stripe));
      if merged == 0 { NothingMerged(w, node.addr, stripe); }
      DrainQuiet(trace, node.addr, stripe);
      Do(Drain(node.addr, stripe));
    }

    /** The page's slots have gone through the exchange of stripe `k`, whatever
        other threads did around it. */
    method DrainStripe(node: PageNode, stripe: nat) returns (merged: nat)
      requires Reached() && node.addr in w.pages
      modifies this`w, this`trace, this`tally
      ensures old(trace) <= trace
      ensures Reached() && QuietBut(old(w), w, node.addr) && tally == old(tally)
      ensures DrainedAt(old(w).pages[node.addr].slots, w.pages[node.addr].slots, stripe)
      ensures StillBack(old(w).pages[node.addr], w.pages[node.addr])
      ensures w.pages[node.addr].freeCount == old(w).pages[node.addr].freeCount + merged
      ensures merged == 0 ==> Published(stripe) !in old(w).pages[node.addr].slots && Quiet(old(w), w)
    {
      hide CanRun, Run, Tally, Pending, QuietBut, Quiet, SlotsStay, DrainedAt, AllBack;
      ghost var start := w;
      Interfere();
      QuietPage(start, w, node.addr);
      var empty := StripeIsEmpty(node, stripe);
      if empty {
        NothingAt(start.pages[node.addr].slots, w.pages[node.addr].slots, stripe);
        return 0;
      }
      ghost var first := w;
      Interfere();
      QuietPage(first, w, node.addr);
      QuietTrans(start, first, w);
      QuietPage(start, w, node.addr);
      ghost var middle := w;
      merged := ExchangeStripe(node, stripe);
      if AllBack(middle.pages[node.addr].slots) { MergedBack(middle.pages[node.addr].slots, stripe); }
      ExchangedAt(start.pages[node.addr].slots, middle.pages[node.addr].slots, stripe);
      QuietThen(start, middle, w, node.addr);
    }

    /** Merges what has been published on the page's stripes, one exchange per
        stripe, skipping stripes that look empty. Everything published before
        the call is merged. */
    method DrainRemote(node: PageNode) returns (merged: nat)
      requires Reached() && node.addr in w.pages
      modifies this`w, this`trace, this`tally
      ensures old(trace) <= trace
      ensures Reached() && QuietBut(old(w), w, node.addr) && tally == old(tally)
      ensures DrainedTo(old(w).pages[node.addr].slots, w.pages[node.addr].slots, STRIPES)
      ensures StillBack(old(w).pages[node.addr], w.pages[node.addr])
      ensures w.pages[node.addr].freeCount == old(w).pages[node.addr].freeCount + merged
      ensures merged == 0 ==> NothingPublished(old(w).pages[node.addr].slots, STRIPES) && Quiet(old(w), w)
    {
      hide CanRun, Run, Tally, Pending, QuietBut, DrainedTo, DrainedAt, NothingPublished, AllBack, Quiet;
      merged := 0;
      ghost var start := w;
      DrainBegins(start, node.addr);
      QuietAtOnce(w);
      for stripe := 0 to STRIPES
        invariant old(trace) <= trace
        invariant Reached() && QuietBut(old(w), w, node.addr) && tally == old(tally) && node.addr in w.pages
        invariant DrainedTo(start.pages[node.addr].slots, w.pages[node.addr].slots, stripe)
        invariant StillBack(start.pages[node.addr], w.pages[node.addr])
        invariant w.pages[node.addr].freeCount == old(w).pages[node.addr].freeCount + merged
        invariant merged == 0 ==> NothingPublished(start.pages[node.addr].slots, stripe) && Quiet(start, w)
      {
        ghost var before := w;
        var slots := DrainStripe(node, stripe);
        QuietButTrans(start, before, w, node.addr);
        DrainGoesOn(start.pages[node.addr].slots, before.pages[node.addr].slots, w.pages[node.addr].slots, stripe);
        if merged + slots == 0 { QuietTrans(start, before, w); }
        merged := merged + slots;
      }
    }

    /** Other threads run; the lists stay as they are. */
    method Elapse()
      requires Coherent()
      modifies this`w, this`trace, this`tally
      ensures Did(old(trace), trace, [])
      ensures Coherent() && Quiet(old(w), w) && tally == old(tally)
      ensures forall inHand :: old(Counted(inHand)) ==> Counted(inHand)
    {
      hide CanRun, Run, Tally, Pending, Sublist.Chained, Linked, Names, AllBack, SlotsStay, Moves;
      Interfere();
    }

    // The moves below take a ghost page `keep` that they leave alone.

    ghost predicate Kept(keep: PageId, s: State, at: map<PageId, PageNode>)
      reads this`w, this`nodeAt
    {
      keep in s.pages && keep in at ==>
        keep in w.pages && keep in nodeAt && nodeAt[keep] == at[keep] && w.pages[keep].freeCount == s.pages[keep].freeCount
        && (AllBack(s.pages[keep].slots) ==> w.pages[keep] == s.pages[keep])
    }

    /** A drain moves no page. */
    method DrainPage(node: PageNode, ghost keep: PageId) returns (merged: nat)
      requires Coherent() && node.addr in w.pages
      modifies this`w, this`trace, this`tally
      ensures old(trace) <= trace
      ensures Coherent() && w.active == old(w).active && w.retired == old(w).retired && w.hold == old(w).hold
      ensures tally == old(tally) && (keep != node.addr ==> Kept(keep, old(w), nodeAt)) && Pending(w) <= Pending(old(w))
      ensures node.addr in w.pages && SameOwned(old(w).pages[node.addr], w.pages[node.addr])
      ensures w.pages[node.addr].freeCount == old(w).pages[node.addr].freeCount + merged
      ensures (keep != node.addr ==> FrozenIn(old(w), w, keep)) && w.pages.Keys == old(w).pages.Keys
      ensures (Offers(old(w).pages[node.addr]) ==> HasCapacity(w.pages[node.addr])) && Onward(old(w), w, keep)
      ensures AllBack(old(w).pages[node.addr].slots) ==> Idle(w.pages[node.addr]) && w.pages[node.addr].flag == old(w).pages[node.addr].flag
    {
      hide CanRun, Run, Tally, Pending, Sublist.Chained, DrainedTo, SlotsStay, AllBack, Offers, Onward, NothingPublished;
      ghost var start, before := w, w.pages[node.addr].slots;
      merged := DrainRemote(node);
      QuietLists(start, w, node.addr);
      DrainOnward(start, w, node.addr, merged, keep);
      if AllBack(before) { AllBackIsIdle(trace, node.addr, before); }
    }

    /** The store that makes a retired page tracked. */
    method Track(ghost keep: PageId)
      requires Coherent() && CanMark(w) && keep != w.hold.page
      modifies this`w, this`trace, this`tally
      ensures Did(old(trace), trace, [Mark])
      ensures Coherent() && w.hold == Nothing && w.active == old(w).active && w.retired == old(w).retired
      ensures tally == old(tally) && Kept(keep, old(w), nodeAt) && w.pages.Keys == old(w).pages.Keys && Tracked(w, old(w).hold.page)
    {
      hide CanRun, Run, Tally, Pending, Sublist.Chained, Names, NoDup, SlotsStay, AllBack, Moves;
      Elapse();
      Do(Mark);
    }

    /** Hands the node that was just evicted to `retired` and tracks it. */
    method RetireEvicted(node: PageNode, ghost keep: PageId)
      requires Coherent() && node !in active.nodes && node !in retired.nodes
      requires CanRetire(w) && w.hold.page == node.addr && nodeAt[node.addr] == node
      requires stats.maxRetired == tally.peak && keep != node.addr
      modifies this`w, this`trace, this`tally, this`stats, retired, retired.nodes, node
      ensures Did(old(trace), trace, [Retire, Mark])
      ensures Coherent() && w.hold == Nothing && w.active == old(w).active && w.retired == [node.addr] + old(w).retired && Tracked(w, node.addr)
      ensures Kept(keep, old(w), nodeAt) && retired.nodes == [node] + old(retired.nodes)
      ensures tally.creates == old(tally).creates && stats.maxRetired == tally.peak
      ensures stats == old(stats).(retired := old(stats).retired + 1, maxRetired := stats.maxRetired)
    {
      hide CanRun, Run, Tally, Pending, Sublist.Chained, Linked, Named, Moves;
      PrependRetired(node);
      ListLengths();
      stats := stats.(retired := stats.retired + 1);
      if retired.length > stats.maxRetired {
        stats := stats.(maxRetired := retired.length);
      }
      Track(keep);
    }

    /** Drains the evicted node; destroys it if that leaves it idle, retires it
        if not. */
    method Dispose(node: PageNode, ghost keep: PageId)
      requires Coherent() && node !in active.nodes && node !in retired.nodes && keep != node.addr
      requires node.addr in w.pages && w.hold == Detached(node.addr) && nodeAt[node.addr] == node
      requires stats.maxRetired == tally.peak
      modifies this`w, this`trace, this`tally, this`nodeAt, this`stats, retired, retired.nodes, node
      ensures old(trace) <= trace
      ensures Coherent() && w.hold == Nothing && w.active == old(w).active && Kept(keep, old(w), old(nodeAt))
      ensures tally.creates == old(tally).creates && stats.maxRetired == tally.peak && MaybeArrived(retired.nodes, old(retired.nodes))
      ensures AllBack(old(w).pages[node.addr].slots) ==> w.retired == old(w).retired
      ensures || (w.retired == old(w).retired && stats == old(stats).(evictionReclaimed := old(stats).evictionReclaimed + 1))
              || (w.retired == [node.addr] + old(w).retired && Tracked(w, node.addr) && stats == old(stats).(retired := old(stats).retired + 1, maxRetired := stats.maxRetired))
    {
      hide CanRun, Run, Tally, Pending, Sublist.Chained;
      var merged := DrainPage(node, keep);
      if Idle(w.pages[node.addr]) {
        stats := stats.(evictionReclaimed := stats.evictionReclaimed + 1);
        Destroy(node);
      } else {
        FreeCountBound(trace, node.addr);
        RetireEvicted(node, keep);
      }
    }

    /** Takes the tail off `active` and disposes of it. */
    method ExpelTail()
      requires Coherent() && w.hold == Nothing && |w.active| == SCAN_LIMIT + 1 && stats.maxRetired == tally.peak
      modifies this`w, this`trace, this`tally, this`nodeAt, this`stats, active, active.nodes, retired, retired.nodes
      ensures old(trace) <= trace
      ensures Coherent() && w.hold == Nothing && w.active == old(w).active[..SCAN_LIMIT] && Kept(w.active[0], old(w), old(nodeAt))
      ensures MaybeArrived(retired.nodes, old(retired.nodes)) && tally.creates == old(tally).creates && stats.maxRetired == tally.peak
      ensures var s, n := old(stats), old(w).active[SCAN_LIMIT];
        || (w.retired == old(w).retired && stats == s.(evictions := s.evictions + 1, evictionReclaimed := s.evictionReclaimed + 1))
        || (w.retired == [n] + old(w).retired && Tracked(w, n) && stats == s.(evictions := s.evictions + 1, retired := s.retired + 1, maxRetired := stats.maxRetired)
            && (n in old(w).pages ==> !AllBack(old(w).pages[n].slots)))
    {
      hide CanRun, Run, Tally, Pending, Sublist.Chained, NoDup, Linked, Named, Names, Inv, AllBack, Searched, Spent;
      ReachableHeadIsNotTail(trace);
      ActiveIsSearchable();
      ActiveNames(SCAN_LIMIT);
      var evict := PopActiveTail();
      Dispose(evict, w.active[0]);
    }

    /** Evicts the tail of `active`. */
    method EvictOne()
      requires Coherent() && w.hold == Nothing && |w.active| == SCAN_LIMIT + 1 && Counted(0)
      modifies this`w, this`trace, this`tally, this`nodeAt, this`stats, active, active.nodes, retired, retired.nodes
      ensures old(trace) <= trace
      ensures Valid() && w.active == old(w).active[..SCAN_LIMIT] && Kept(w.active[0], old(w), old(nodeAt))
      ensures EvictionStats(old(stats), stats) && MaybeArrived(retired.nodes, old(retired.nodes))
      ensures w.retired == old(w).retired || EvictedInto(old(w), old(stats), w, stats)
    {
      hide CanRun, Run, Tally, Pending, Sublist.Chained, NoDup, Inv, AllBack;
      assert stats.maxRetired == tally.peak;
      hide Balanced, Linked, Named, Names, Kept, MaybeArrived;
      ExpelTail();
      BalancedAfterEviction(old(stats), old(w), old(tally), stats, w, tally);
    }

    /** Prepends `page`; if that takes `active` past the scan limit, evicts one. */
    method PrependActiveWithEviction(page: PageNode)
      requires Coherent() && page !in active.nodes && page !in retired.nodes
      requires CanActivate(w) && w.hold.page == page.addr && nodeAt[page.addr] == page
      requires |w.active| <= SCAN_LIMIT && Counted(1)
      modifies this`w, this`trace, this`tally, this`nodeAt, this`stats, active, active.nodes, retired, retired.nodes, page
      ensures old(trace) <= trace
      ensures Valid()
      ensures Served(page) && w.active == Fitted(page.addr, old(w).active) && (AllBack(old(w).pages[page.addr].slots) ==> w.pages[page.addr] == old(w).pages[page.addr].(kind := InActive))
      ensures EvictionStats(old(stats), stats)
      ensures w.retired == old(w).retired || EvictedInto(old(w), old(stats), w, stats)
      ensures MaybeArrived(retired.nodes, old(retired.nodes))
    {
      hide CanRun, Run, Tally, Pending, Sublist.Chained, Linked, Named, Searched, Spent, AllBack, Moves;
      PrependActive(page);
      ListLengths();
      HasNode(page.addr);
      if active.length > SCAN_LIMIT {
        EvictOne();
      }
    }

    lemma ListLengths()
      requires Coherent()
      ensures active.length == |w.active| && retired.length == |w.retired|
    {
      hide Sublist.Chained;
    }

    /** A page comes into the owner's hand: its struct zeroed, all slots free. */
    method Receive(page: PageNode, slotCount: nat, gen: nat)
      requires Coherent() && w.hold == Nothing && |w.active| <= SCAN_LIMIT && page.addr !in w.pages && 0 < slotCount < WORD
      modifies this`w, this`trace, this`tally, this`nodeAt, this`Repr
      ensures Did(old(trace), trace, [Create(page.addr, slotCount, gen)])
      ensures Coherent() && w == DoCreate(old(w), page.addr, slotCount, gen) && nodeAt == old(nodeAt)[page.addr := page]
      ensures Repr == old(Repr) + {page}
      ensures tally.creates == old(tally).creates + 1 && tally.peak == old(tally).peak
      ensures page !in active.nodes && page !in retired.nodes
    {
      hide CanRun, Run, Tally, Pending, Sublist.Chained, Moves;
      Do(Create(page.addr, slotCount, gen));
      nodeAt, Repr := nodeAt[page.addr := page], Repr + {page};
    }

    /** A newly created page enters the class. */
    method Add(page: PageNode, slotCount: nat, gen: nat)
      requires Valid() && page.addr !in w.pages && 0 < slotCount < WORD
      modifies this`w, this`trace, this`tally, this`nodeAt, this`stats, this`Repr, active, active.nodes, retired, retired.nodes, page
      ensures old(trace) <= trace
      ensures Valid() && Served(page) && w.active == Fitted(page.addr, old(w).active) && EvictionStats(old(stats), stats) && Repr == old(Repr) + {page}
      ensures w.pages[page.addr] == Page(InActive, seq(slotCount, i => Free), slotCount, gen, false, 0, false, 0)
      ensures w.retired == old(w).retired || EvictedInto(old(w), old(stats), w, stats)
    {
      hide CanRun, Run, Tally, Pending, Sublist.Chained, Linked, Named;
      Receive(page, slotCount, gen);
      PrependActiveWithEviction(page);
    }

    /** Hands out slot `i` of a page of `active`. */
    method AllocSlot(page: PageNode, i: nat)
      requires Valid() && CanAlloc(w, page.addr, i)
      modifies this`w, this`trace, this`tally
      ensures Did(old(trace), trace, [Alloc(page.addr, i)])
      ensures Valid() && w == DoAlloc(old(w), page.addr, i)
    {
      hide CanRun, Run, Tally, Pending, Sublist.Chained, Linked, Moves;
      Do(Alloc(page.addr, i));
    }

    /** Other threads run for a while. */
    method Wait()
      requires Valid()
      modifies this`w, this`trace, this`tally
      ensures Did(old(trace), trace, [])
      ensures Valid() && Quiet(old(w), w)
    {
      hide CanRun, Run, Tally, Pending, Sublist.Chained, Linked, Moves;
      Elapse();
    }

    /** Everything linked has come into the class. */
    lemma LinkedInRepr()
      requires Coherent()
      ensures (forall n :: n in active.nodes ==> n in Repr) && (forall n :: n in retired.nodes ==> n in Repr)
    {
      hide CanRun, Run, Tally, Pending, Sublist.Chained;
    }

    lemma HasNode(p: PageId)
      requires Coherent()
      ensures p in w.pages ==> p in nodeAt && nodeAt[p].addr == p
    {}

    method MoveToHead(node: PageNode) returns (ghost at: nat)
      requires Linked() && node in active.nodes
      modifies active, active.nodes
      ensures Linked() && at < |old(active.nodes)| && old(active.nodes)[at] == node
      ensures active.nodes == [node] + (old(active.nodes)[..at] + old(active.nodes)[at + 1..])
    {
      hide Sublist.Chained, NoDup;
      HeadOfActive();
      if active.head == node {
        return 0;
      }
      at := UnlinkActive(node);
      LinkActive(node);
    }

    method UnlinkActive(node: PageNode) returns (ghost at: nat)
      requires Linked() && node in active.nodes
      modifies active, active.nodes
      ensures Linked() && at < |old(active.nodes)| && old(active.nodes)[at] == node
      ensures active.nodes == old(active.nodes)[..at] + old(active.nodes)[at + 1..] && node !in active.nodes && node !in retired.nodes
    {
      at := active.Remove(node);
      assert forall n :: n in retired.nodes ==> n.prev == old(n.prev) && n.next == old(n.next);
    }

    lemma HeadOfActive()
      requires Linked()
      ensures active.nodes == [] ==> active.head == null
      ensures active.nodes != [] ==> active.head == active.nodes[0] && active.nodes == [active.nodes[0]] + (active.nodes[..0] + active.nodes[1..])
    {}

    method MoveHitToFront(node: PageNode)
      requires Coherent() && node in active.nodes && w.hold == Nothing
      modifies this`w, this`trace, this`tally, active, active.nodes
      ensures Did(old(trace), trace, [MoveToFront(node.addr)])
      ensures Coherent() && w == DoMoveToFront(old(w), node.addr) && tally == old(tally)
      ensures |w.active| == |old(w).active|
    {
      hide CanRun, Run, Tally, Pending, Sublist.Chained, Linked, Names, NoDup, Without, Moves;
      ghost var before := active.nodes;
      ghost var at := MoveToHead(node);
      ReachableActiveNoDup(trace);
      NamesAt(before, w.active, nodeAt, at);
      WithoutAt(w.active, at);
      NamesToHead(before, w.active, nodeAt, at);
      Do(MoveToFront(node.addr));
    }

    /** Serves `node` from where it is, or from the head if the build moves hits
        to the front. */
    method Hit(node: PageNode)
      requires Valid() && node in active.nodes && HasCapacity(w.pages[node.addr])
      modifies this`w, this`trace, this`tally, active, active.nodes
      ensures Did(old(trace), trace, if moveToFront then [MoveToFront(node.addr)] else [])
      ensures Valid() && w == if moveToFront then DoMoveToFront(old(w), node.addr) else old(w)
    {
      hide CanRun, Run, Tally, Pending, Sublist.Chained, Linked, Named, Moves;
      if moveToFront {
        MoveHitToFront(node);
      }
    }

    /** Drains page `n` of `active`, the first `n` having nothing to offer. */
    method DrainNext(page: PageNode, ghost start: State, ghost n: nat) returns (merged: nat)
      requires Valid() && n < |active.nodes| && active.nodes[n] == page && !HasCapacity(w.pages[page.addr])
      requires Searched(start, w, n) && Spent(start, n)
      modifies this`w, this`trace, this`tally
      ensures old(trace) <= trace
      ensures Valid() && w.active == old(w).active && w.retired == old(w).retired
      ensures page.addr in w.pages && Barren(start, n + 1) && QuietBut(old(w), w, page.addr) && (merged == 0 ==> Quiet(old(w), w))
      ensures if merged == 0 then Searched(start, w, n + 1) && Spent(start, n + 1) else HasCapacity(w.pages[page.addr])
    {
      hide CanRun, Run, Tally, Pending, Sublist.Chained, Linked, Searched, SlotsStay, DrainedTo, NothingPublished, Spent, QuietBut, Quiet;
      ActiveNames(n);
      ReachableActiveNoDup(trace);
      ghost var before := w;
      merged := DrainRemote(page);
      QuietLists(before, w, page.addr);
      SearchGoesOn(start, before, w, n, merged);
    }

    lemma ActiveNames(n: nat)
      requires Coherent() && n < |active.nodes|
      ensures n < |w.active| && w.active[n] == active.nodes[n].addr && w.active[n] in w.pages
    {}

    lemma ActiveLinks(n: nat)
      requires Linked()
      ensures active.head == if active.nodes == [] then null else active.nodes[0]
      ensures n < |active.nodes| ==> active.nodes[n].next == if n + 1 < |active.nodes| then active.nodes[n + 1] else null
    {}

    lemma ActiveIsSearchable()
      requires Coherent()
      ensures |active.nodes| == |w.active| && Searched(w, w, 0) && Spent(w, 0)
    {
      hide Linked;
      assert forall i :: 0 <= i < |w.active| ==> w.active[i] in nodeAt;
      SearchBegins(w);
    }

    /** Looks for a page with capacity, head first, draining as it goes; `at` is
        how far it got. No page is missed: `active` is within the scan limit. */
    method FindWithCapacity() returns (r: PageNode?, ghost at: nat)
      requires Valid()
      modifies this`w, this`trace, this`tally, active, active.nodes
      ensures old(trace) <= trace
      ensures Valid() && w.retired == old(w).retired && Spent(old(w), at)
      ensures r == null ==> w.active == old(w).active && at == |w.active| && Barren(w, at) && Quiet(old(w), w)
      ensures r != null ==> QuietBut(old(w), w.(active := old(w).active), r.addr)
      ensures r != null ==> at < |old(w).active| && old(w).active[at] == r.addr && r.addr in w.pages && HasCapacity(w.pages[r.addr])
      ensures r != null ==> w.active == if moveToFront then [r.addr] + Without(old(w).active, r.addr) else old(w).active
    {
      hide CanRun, Run, Tally, Pending, Sublist.Chained, Linked, Named, Balanced, NothingPublished, Without, Quiet, QuietBut, Moves;
      at := 0;
      ActiveLinks(at);
      ActiveIsSearchable();
      ghost var start := w;
      QuietAtOnce(w);
      var page, scanned := active.head, 0;
      while page != null && scanned < SCAN_LIMIT
        invariant old(trace) <= trace
        invariant Valid() && w.active == old(w).active && w.retired == old(w).retired && active.nodes == old(active.nodes)
        invariant at == scanned <= |active.nodes| && page == if at < |active.nodes| then active.nodes[at] else null
        invariant Quiet(start, w)
        invariant Searched(old(w), w, at) && Spent(old(w), at)
      {
        ActiveNames(at);
        ghost var here := w;
        QuietPage(start, w, page.addr);
        if HasCapacity(w.pages[page.addr]) {
          Hit(page);
          return page, at;
        }
        var merged := DrainNext(page, old(w), at);
        if merged > 0 {
          QuietThen(start, here, w, page.addr);
          Hit(page);
          return page, at;
        }
        QuietTrans(start, here, w);
        ActiveLinks(at);
        page := page.next;
        scanned := scanned + 1;
        at := at + 1;
      }
      r := null;
    }

    // Taking pages out of `retired`.

    lemma CursorInRetired()
      requires Coherent()
      ensures CursorOk(Rotation()) && NoDup(w.retired)
    {
      hide CanRun, Run, Tally, Pending, Sublist.Chained;
      ReachableRetiredNoDup(trace);
      if cursor != null {
        var i :| 0 <= i < |retired.nodes| && retired.nodes[i] == cursor;
        assert w.retired[i] == cursor.addr;
      }
    }

    lemma RetiredNode(node: PageNode) returns (at: nat)
      requires Coherent() && node in retired.nodes
      ensures at < |retired.nodes| == |w.retired| && retired.nodes[at] == node && w.retired[at] == node.addr
      ensures node.addr in nodeAt && nodeAt[node.addr] == node && node.addr in w.pages && w.pages[node.addr].kind == InRetired
      ensures 0 < |w.pages[node.addr].slots| && node.addr !in w.active
    {
      hide CanRun, Run, Tally, Pending, Sublist.Chained;
      at :| 0 <= at < |retired.nodes| && retired.nodes[at] == node;
      ReachableListsDisjoint(trace, node.addr);
    }

    /** Unlinks a retired page; the cursor never dangles. */
    method TakeRetired(node: PageNode) returns (ghost at: nat)
      requires Coherent() && node in retired.nodes && CanUnlink(w) && w.hold.page == node.addr
      modifies this`cursor, this`w, this`trace, this`tally, retired, retired.nodes
      ensures Did(old(trace), trace, [Unlink])
      ensures Coherent() && w == DoUnlink(old(w)) && tally == old(tally) && Pending(w) <= Pending(old(w))
      ensures node.addr in old(w).retired && Rotation() == Removed(old(Rotation()), node.addr) && |w.retired| + 1 == |old(w).retired|
      ensures at < |old(retired.nodes)| && old(retired.nodes)[at] == node
      ensures retired.nodes == old(retired.nodes)[..at] + old(retired.nodes)[at + 1..]
      ensures node !in active.nodes && node !in retired.nodes && node.addr in nodeAt && nodeAt[node.addr] == node
    {
      hide CanRun, Run, Tally, Pending, Sublist.Chained, Moves;
      at := RetiredNode(node);
      CursorInRetired();
      IndexUnique(w.retired, at);
      WithoutElements(w.retired, node.addr);
      at := RetiredRemove(node);
    }

    /** Destroys an idle page that the owner has popped or cancelled. */
    method ReclaimRetired(node: PageNode, via: Finder) returns (ghost at: nat)
      requires Coherent() && node in retired.nodes && CanUnlink(w) && w.hold.page == node.addr && Idle(w.pages[node.addr])
      requires |w.active| <= SCAN_LIMIT && Counted(0)
      modifies this`cursor, this`w, this`trace, this`tally, this`nodeAt, this`stats, retired, retired.nodes
      ensures Did(old(trace), trace, [Unlink, Reclaim])
      ensures Valid() && w.active == old(w).active && stats == old(stats).Reclaim(via) && Pending(w) <= Pending(old(w))
      ensures node.addr in old(w).retired && Rotation() == Removed(old(Rotation()), node.addr)
      ensures w.pages == old(w).pages - {node.addr} && w.ready == old(w).ready
      ensures at < |old(retired.nodes)| && old(retired.nodes)[at] == node
      ensures retired.nodes == old(retired.nodes)[..at] + old(retired.nodes)[at + 1..] && Subset(retired.nodes, old(retired.nodes))
    {
      hide CanRun, Run, Tally, Pending, Sublist.Chained, Linked, Named, Balanced, Moves;
      at := TakeRetired(node);
      stats := stats.Reclaim(via);
      Destroy(node);
      BalancedAfterReclaim(old(stats), old(w), w, tally, via);
    }

    /** Moves a page with capacity from `retired` to the head of `active`. */
    method PromoteRetired(node: PageNode, via: Finder) returns (ghost at: nat)
      requires Coherent() && node in retired.nodes && CanUnlink(w) && w.hold.page == node.addr
      requires |w.active| <= SCAN_LIMIT && Counted(0) && via != ByLocalFree
      modifies this`cursor, this`w, this`trace, this`tally, this`nodeAt, this`stats, active, active.nodes, retired, retired.nodes
      ensures old(trace) <= trace
      ensures Valid() && Served(node) && w.active == Fitted(node.addr, old(w).active) && EvictionStats(old(stats).Promote(via), stats)
      ensures node.addr in old(w).retired && Promoted(old(w), old(Rotation()), old(stats), node.addr, w, Rotation(), stats)
      ensures at < |old(retired.nodes)| && old(retired.nodes)[at] == node
      ensures MaybeArrived(retired.nodes, old(retired.nodes)[..at] + old(retired.nodes)[at + 1..])
    {
      hide CanRun, Run, Tally, Pending, Sublist.Chained, Linked, Named, Balanced;
      at := TakeRetired(node);
      stats := stats.Promote(via);
      BalancedInPromotion(old(stats), old(w), w, tally, via);
      PrependActiveWithEviction(node);
    }

    // Harvest: the ready candidates first, then a bounded sweep.

    /** Takes the newest candidate off the ready stack. `x` is any page. */
    method PopReady(ghost x: PageId) returns (node: PageNode?)
      requires Valid()
      modifies this`w, this`trace, this`tally
      ensures Did(old(trace), trace, if node != null then [Pop] else [])
      ensures Coherent() && w.active == old(w).active && w.retired == old(w).retired && tally == old(tally)
      ensures Counted(0) && w.pages.Keys == old(w).pages.Keys
      ensures node == null ==> w.hold == Nothing && w.ready == [] && Pending(w) <= Pending(old(w))
      ensures node != null ==> w.hold == Popped(node.addr) && node in retired.nodes && Pending(w) < Pending(old(w))
      ensures node != null ==> node.addr in Pending(old(w)) && node.addr !in Pending(w)
      ensures Onward(old(w), w, x)
      ensures if node != null && x == node.addr then Popping(old(w), w, x) else FrozenIn(old(w), w, x)
    {
      hide CanRun, Run, Tally, Pending, Sublist.Chained, Linked, AllBack, Offers, Onward, Moves;
      ghost var start := w;
      Elapse();
      QuietFrozen(start, w, x);
      QuietOnward(start, w, x);
      if w.ready == [] {
        return null;
      }
      PoppedCandidate(trace);
      node := nodeAt[w.ready[0]];
      PopOnward(w, x);
      OnwardTrans(start, w, DoPop(w), x);
      Do(Pop);
    }

    method LetGo(e: Event)
      requires Coherent() && Enabled(w, e) && (e == DropStale || e == LeaveInPlace)
      modifies this`w, this`trace, this`tally
      ensures Did(old(trace), trace, [e])
      ensures Coherent() && w == DoLetGo(old(w)) && tally == old(tally) && Pending(w) <= Pending(old(w))
    {
      hide CanRun, Run, Tally, Pending, Linked, Moves;
      Do(e);
    }

    /** A drained candidate is reclaimed, promoted, or left where it is. */
    method OfferCandidate(node: PageNode, ghost x: PageId) returns (promoted: bool)
      requires Coherent() && w.hold == Popped(node.addr) && node in retired.nodes && |w.active| <= SCAN_LIMIT && Counted(0)
      requires node.addr in w.pages && !Stale(w, node.addr)
      modifies this`cursor, this`w, this`trace, this`tally, this`nodeAt, this`stats, active, active.nodes, retired, retired.nodes
      ensures old(trace) <= trace
      ensures promoted <==> HasCapacity(old(w).pages[node.addr]) && !Idle(old(w).pages[node.addr])
      ensures Idle(old(w).pages[node.addr]) ==> stats == old(stats).Reclaim(ByReady) && node.addr !in w.pages
      ensures !promoted && x != node.addr ==> FrozenIn(old(w), w, x)
      ensures !promoted ==> w.pages.Keys <= old(w).pages.Keys && Onward(old(w), w, x)
      ensures !HasCapacity(old(w).pages[node.addr]) ==> stats == old(stats).(falsePositives := old(stats).falsePositives + 1)
      ensures Valid() && node.addr in old(w).retired
      ensures promoted ==> Served(node) && w.active == Fitted(node.addr, old(w).active) && Promoted(old(w), old(Rotation()), old(stats), node.addr, w, Rotation(), stats)
      ensures promoted ==> EvictionStats(old(stats).Promote(ByReady), stats)
      ensures !promoted ==> w.active == old(w).active && Pending(w) <= Pending(old(w))
      ensures !promoted ==> active.nodes == old(active.nodes) && Subset(retired.nodes, old(retired.nodes))
      ensures !promoted ==> CandidateLeft(old(Rotation()), old(stats), node.addr, Rotation(), stats)
    {
      hide CanRun, Run, Tally, Pending, Sublist.Chained, Linked, Named, Subset, Promoted, AllBack, Onward, Offers;
      promoted := false;
      ghost var at := RetiredNode(node);
      SubsetOfItself(retired.nodes);
      ghost var before := w;
      if Idle(w.pages[node.addr]) {
        at := ReclaimRetired(node, ByReady);
      } else if HasCapacity(w.pages[node.addr]) {
        at := PromoteRetired(node, ByReady);
        promoted := true;
      } else {
        stats := stats.(falsePositives := stats.falsePositives + 1);
        LetGo(LeaveInPlace);
      }
      if !promoted { StandsOnward(before, w, x); }
    }

    /** Deals with a popped candidate: drops it if the page is not the one that
        was marked, otherwise drains it and sees what it has to offer. */
    method SettleCandidate(node: PageNode, ghost x: PageId) returns (promoted: bool)
      requires Coherent() && w.hold == Popped(node.addr) && node in retired.nodes && |w.active| <= SCAN_LIMIT && Counted(0)
      modifies this`cursor, this`w, this`trace, this`tally, this`nodeAt, this`stats, active, active.nodes, retired, retired.nodes
      ensures old(trace) <= trace
      ensures Valid() && node.addr in old(w).retired && node.addr in old(w).pages
      ensures AllBack(old(w).pages[node.addr].slots) ==> !promoted && stats == old(stats).Reclaim(ByReady) && node.addr !in w.pages
      ensures !promoted && x != node.addr ==> FrozenIn(old(w), w, x)
      ensures !promoted ==> w.pages.Keys <= old(w).pages.Keys && Onward(old(w), w, x)
      ensures !promoted && Offers(old(w).pages[node.addr]) ==> node.addr !in w.pages
      ensures promoted ==> Served(node) && w.active == Fitted(node.addr, old(w).active) && Promoted(old(w), old(Rotation()), old(stats), node.addr, w, Rotation(), stats)
      ensures promoted ==> EvictionStats(old(stats).Promote(ByReady), stats)
      ensures !promoted ==> w.active == old(w).active && Pending(w) <= Pending(old(w))
      ensures !promoted ==> active.nodes == old(active.nodes) && Subset(retired.nodes, old(retired.nodes))
      ensures !promoted ==> CandidateLeft(old(Rotation()), old(stats), node.addr, Rotation(), stats)
    {
      hide CanRun, Run, Tally, Pending, Sublist.Chained, Linked, Named, Subset, AllBack, Onward, Offers;
      ghost var popped := trace;
      ghost var at := RetiredNode(node);
      SubsetOfItself(retired.nodes);
      if Stale(w, node.addr) {
        stats := stats.(staleGenerations := stats.staleGenerations + 1);
        LetGo(DropStale);
        NoStaleCandidate(popped);
        return false;
      }
      ghost var start := w;
      var merged := DrainPage(node, x);
      ghost var drained := w;
      promoted := OfferCandidate(node, x);
      if !promoted { OnwardTrans(start, drained, w, x); }
    }

    /** The rotation stays well formed, and the tail of `active` is not in it. */
    lemma RotationFacts()
      requires Coherent()
      ensures CursorOk(Rotation()) && NoDup(w.retired)
      ensures w.active != [] ==> w.active[|w.active| - 1] !in w.retired
    {
      hide CanRun, Run, Tally, Pending, Sublist.Chained, Linked, Named;
      CursorInRetired();
      if w.active != [] {
        ReachableListsDisjoint(trace, w.active[|w.active| - 1]);
      }
    }

    /** A popped candidate has its turn; what that does to the rotation. */
    method Turn(node: PageNode, ghost x: PageId) returns (promoted: bool, ghost gone: seq<PageId>)
      requires Coherent() && w.hold == Popped(node.addr) && node in retired.nodes && |w.active| <= SCAN_LIMIT && Counted(0)
      modifies this`cursor, this`w, this`trace, this`tally, this`nodeAt, this`stats, active, active.nodes, retired, retired.nodes
      ensures old(trace) <= trace
      ensures Valid() && stats.evictions >= old(stats).evictions && stats.harvestCalls == old(stats).harvestCalls
      ensures stats.Promoted() == old(stats).Promoted() + (if promoted then 1 else 0)
      ensures promoted ==> Served(node) && w.active == Fitted(node.addr, old(w).active) && (x in w.retired ==> x in old(w).retired || IsTail(old(w), x))
      ensures promoted && x in old(w).retired && x in w.retired ==>
                Advances(old(Rotation()), Rotation(), 0, stats.evictions - old(stats).evictions, x)
      ensures node.addr in old(w).pages && (AllBack(old(w).pages[node.addr].slots) ==> !promoted && node.addr !in w.pages)
      ensures !promoted && Offers(old(w).pages[node.addr]) ==> node.addr !in w.pages
      ensures !promoted ==> Onward(old(w), w, x)
      ensures !promoted ==> w.pages.Keys <= old(w).pages.Keys && (x != node.addr ==> FrozenIn(old(w), w, x))
      ensures !promoted ==> w.active == old(w).active && Pending(w) <= Pending(old(w)) && stats.evictions == old(stats).evictions
      ensures !promoted ==> active.nodes == old(active.nodes) && Subset(retired.nodes, old(retired.nodes))
      ensures !promoted ==> (x in w.retired ==> x in old(w).retired && Advances(old(Rotation()), Rotation(), 0, 0, x))
      ensures !promoted ==> gone <= [node.addr] && Rotation() == RemovedAll(old(Rotation()), gone)
      ensures !promoted ==> stats.reclaimedByReady == old(stats).reclaimedByReady + |gone|
    {
      hide CanRun, Run, Tally, Pending, Sublist.Chained, Linked, Named, Balanced;
      hide Advances, Subset, AllBack, FrozenIn, Promoted, CandidateLeft, RemovedAll, CursorOk, NoDup, Onward, Offers;
      RotationFacts();
      ghost var before, here := w, Rotation();
      gone := [];
      promoted := SettleCandidate(node, x);
      RotationFacts();
      if promoted {
        PromotionFollows(before, here, old(stats), node.addr, w, Rotation(), stats, x);
      } else {
        gone := LeftBehind(here, old(stats), node.addr, Rotation(), stats, x);
      }
    }

    /** One candidate of the ready loop, or none. `x` is any page that is not
        nearer to the sweep than it was at `round`. */
    method HarvestOne(ghost start: State, ghost round: Round, ghost x: PageId) 
      returns (node: PageNode?, promoted: bool, ghost gone: seq<PageId>)
      requires Valid() && ReadyKept(start, w, x) && DueKept(start, w, x) && Onward(start, w, x)
      requires w.active != [] ==> !(x in round.retired && IsTail(w, x))
      requires x in w.retired ==> x in round.retired && Advances(round, Rotation(), 0, 0, x)
      modifies this`cursor, this`w, this`trace, this`tally, this`nodeAt, this`stats, active, active.nodes, retired, retired.nodes
      ensures old(trace) <= trace
      ensures Valid() && stats.evictions >= old(stats).evictions && stats.harvestCalls == old(stats).harvestCalls
      ensures promoted ==> node != null && node in old(retired.nodes) && Served(node) && w.active == Fitted(node.addr, old(w).active)
      ensures stats.Promoted() == old(stats).Promoted() + (if promoted then 1 else 0)
      ensures !promoted ==> stats.reclaimedByReady == old(stats).reclaimedByReady + |gone| && Rotation() == RemovedAll(old(Rotation()), gone)
      ensures promoted && x in round.retired && x in w.retired ==>
                Advances(round, Rotation(), 0, stats.evictions - old(stats).evictions, x)
      ensures !promoted ==> w.active == old(w).active && stats.evictions == old(stats).evictions && w.pages.Keys <= old(w).pages.Keys
      ensures !promoted ==> active.nodes == old(active.nodes) && Subset(retired.nodes, old(retired.nodes))
      ensures !promoted ==> ReadyKept(start, w, x) && DueKept(start, w, x) && Onward(start, w, x)
      ensures !promoted ==> (x in w.retired ==> x in round.retired && Advances(round, Rotation(), 0, 0, x))
      ensures node == null ==> !promoted && CandidateDone(start, w, x)
      ensures node != null && !promoted ==> Pending(w) < Pending(old(w))
    {
      hide CanRun, Run, Tally, Pending, Sublist.Chained, Linked, Named, Balanced, Advances;
      hide Subset, AllBack, ReadyKept, DueKept, FrozenIn, Popping, CandidateDone, RemovedAll, CursorOk, Onward, Offers;
      promoted, gone := false, [];
      ghost var last := w;
      SubsetOfItself(retired.nodes);
      node := PopReady(x);
      KeptThroughPop(start, last, w, if node == null then None else Some(node.addr), x);
      OnwardTrans(start, last, w, x);
      if node == null {
        return;
      }
      ghost var before, here := w, Rotation();
      promoted, gone := Turn(node, x);
      if promoted {
        if x in round.retired && x in w.retired {
          AdvancesTrans(round, here, Rotation(), 0, 0, 0, stats.evictions - old(stats).evictions, x);
        }
      } else {
        KeptThroughSettle(start, before, w, node.addr, x);
        OnwardTrans(start, before, w, x);
        if x in w.retired {
          AdvancesTrans(round, here, Rotation(), 0, 0, 0, 0, x);
        }
      }
    }

    /** The event-driven half of a harvest. It ends, although other threads keep
        pushing: every pop uses up a page that was pending, and only the owner
        makes pages pending. If it finds nothing to promote, every candidate has
        been dealt with. `x` is any page. */
    method HarvestReady(ghost x: PageId) returns (r: PageNode?, ghost gone: seq<PageId>)
      requires Valid()
      modifies this`cursor, this`w, this`trace, this`tally, this`nodeAt, this`stats, active, active.nodes, retired, retired.nodes
      ensures old(trace) <= trace
      ensures Valid() && stats.evictions >= old(stats).evictions && stats.harvestCalls == old(stats).harvestCalls
      ensures r != null ==> r in old(retired.nodes) && Served(r) && w.active == Fitted(r.addr, old(w).active)
      ensures stats.Promoted() == old(stats).Promoted() + (if r != null then 1 else 0)
      ensures r == null ==> stats.reclaimedByReady == old(stats).reclaimedByReady + |gone| && Rotation() == RemovedAll(old(Rotation()), gone)
      ensures r == null ==> w.active == old(w).active && stats.evictions == old(stats).evictions && (x in w.retired ==> x in old(w).retired)
      ensures r == null ==> active.nodes == old(active.nodes) && Subset(retired.nodes, old(retired.nodes))
      ensures r == null ==> CandidateDone(old(w), w, x) && DueKept(old(w), w, x) && Onward(old(w), w, x) && w.pages.Keys <= old(w).pages.Keys
      ensures x in old(w).retired && x in w.retired ==>
                Advances(old(Rotation()), Rotation(), 0, stats.evictions - old(stats).evictions, x)
    {
      hide CanRun, Run, Tally, Pending, Sublist.Chained, Linked, Named, Balanced, Advances, Subset, AllBack, ReadyKept, DueKept, CandidateDone, Onward, Offers;
      RotationFacts();
      SubsetOfItself(retired.nodes);
      if x in w.retired { StandsStill(Rotation(), x); }
      ghost var start, round := w, Rotation();
      KeptAtOnce(w, x);
      StandsOnward(w, w, x);
      gone := [];
      while true
        invariant old(trace) <= trace
        invariant Valid() && w.active == start.active && stats.evictions == old(stats).evictions && stats.harvestCalls == old(stats).harvestCalls
        invariant active.nodes == old(active.nodes) && Subset(retired.nodes, old(retired.nodes))
        invariant ReadyKept(start, w, x) && DueKept(start, w, x) && Onward(start, w, x) && w.pages.Keys <= start.pages.Keys
        invariant x in w.retired ==> x in start.retired && Advances(round, Rotation(), 0, 0, x)
        invariant stats.Promoted() == old(stats).Promoted() && stats.reclaimedByReady == old(stats).reclaimedByReady + |gone|
        invariant Rotation() == RemovedAll(round, gone)
        decreases Pending(w)
      {
        SubsetReaches(retired.nodes, old(retired.nodes));
        ghost var nodes := retired.nodes;
        var node, promoted;
        ghost var lost;
        node, promoted, lost := HarvestOne(start, round, x);
        if promoted {
          return node, gone;
        }
        RemovedFurther(round, gone, lost);
        gone := gone + lost;
        SubsetTrans(retired.nodes, nodes, old(retired.nodes));
        if node == null {
          return null, gone;
        }
      }
    }

    /** The exchange of the flag itself. */
    method LowerFlag(node: PageNode)
      requires Coherent() && CanCancel(w, node.addr)
      modifies this`w, this`trace, this`tally
      ensures Did(old(trace), trace, [Cancel(node.addr)])
      ensures Coherent() && w == DoCancel(old(w), node.addr) && tally == old(tally) && Pending(w) <= Pending(old(w))
    {
      hide CanRun, Run, Tally, Pending, Sublist.Chained, Linked, Names, Moves;
      Do(Cancel(node.addr));
    }

    /** The owner's side of the flag: takes the page if it is still tracked. Each
        caller counts a lost race. */
    method TryCancel(node: PageNode, ghost x: PageId) returns (won: bool)
      requires Valid() && node in retired.nodes && HasCapacity(w.pages[node.addr])
      modifies this`w, this`trace, this`tally, this`stats
      ensures Coherent() && Counted(0) && w.active == old(w).active && w.retired == old(w).retired && tally == old(tally)
      ensures w.hold == if won then Cancelled(node.addr) else Nothing
      ensures node.addr in w.pages && HasCapacity(w.pages[node.addr]) && (Idle(old(w).pages[node.addr]) ==> Idle(w.pages[node.addr]))
      ensures won ==> old(w).pages[node.addr].flag
      ensures (!won ==> !Tracked(w, node.addr)) && Onward(old(w), w, x)
      ensures Did(old(trace), trace, if won then [Cancel(node.addr)] else [])
      ensures Idle(old(w).pages[node.addr]) ==> won == old(w).pages[node.addr].flag
      ensures Elsewhere(old(w), w, node.addr) && (!won ==> Quiet(old(w), w))
      ensures Pending(w) <= Pending(old(w)) && w.pages.Keys == old(w).pages.Keys
      ensures x != node.addr ==> FrozenIn(old(w), w, x)
      ensures stats == if won then old(stats) else old(stats).(lostRaces := old(stats).lostRaces + 1)
    {
      hide CanRun, Run, Tally, Pending, Sublist.Chained, Linked, Named, AllBack, SlotsStay, Offers, Onward, Moves;
      ghost var at := RetiredNode(node);
      ghost var start := w;
      Elapse();
      QuietFrozen(start, w, x);
      QuietOnward(start, w, x);
      won := w.pages[node.addr].flag;
      if won {
        CancelOnward(w, node.addr, x);
        OnwardTrans(start, w, DoCancel(w, node.addr), x);
        LowerFlag(node);
      } else {
        stats := stats.(lostRaces := stats.lostRaces + 1);
      }
    }

    /** A drain in the middle of a sweep. */
    method DrainRetired(node: PageNode, ghost x: PageId) returns (merged: nat)
      requires Valid() && node in retired.nodes
      modifies this`w, this`trace, this`tally
      ensures old(trace) <= trace
      ensures Valid() && w.active == old(w).active && w.retired == old(w).retired
      ensures node.addr in w.pages && |w.pages[node.addr].slots| > 0
      ensures w.pages.Keys == old(w).pages.Keys && (x != node.addr ==> FrozenIn(old(w), w, x))
      ensures (Offers(old(w).pages[node.addr]) ==> HasCapacity(w.pages[node.addr])) && Onward(old(w), w, x)
      ensures AllBack(old(w).pages[node.addr].slots) ==> Idle(w.pages[node.addr]) && w.pages[node.addr].flag == old(w).pages[node.addr].flag
    {
      hide CanRun, Run, Tally, Pending, Sublist.Chained, Linked, Named, Offers, Onward;
      ghost var at := RetiredNode(node);
      merged := DrainPage(node, x);
    }

    lemma RetiredNames()
      requires Coherent()
      ensures forall n :: n in retired.nodes ==> n.addr in w.retired
    {}

    lemma RetiredDistinct()
      requires Coherent()
      ensures NoDup(retired.nodes) && |retired.nodes| == |w.retired|
      ensures forall i :: 0 <= i < |retired.nodes| ==> retired.nodes[i].addr == w.retired[i]
    {}

    method LooksOnStack(node: PageNode, ghost x: PageId) returns (on: bool)
      requires Valid() && node in retired.nodes
      modifies this`w, this`trace, this`tally
      ensures Did(old(trace), trace, [])
      ensures Valid() && w.active == old(w).active && w.retired == old(w).retired && Cur() == old(Cur())
      ensures w.pages.Keys == old(w).pages.Keys && FrozenIn(old(w), w, x)
      ensures Quiet(old(w), w) && (old(w).pages[node.addr].onStack ==> on)
      ensures (on ==> !Tracked(w, node.addr)) && Onward(old(w), w, x) && Onward(old(w), w, node.addr)
      ensures AllBack(old(w).pages[node.addr].slots) ==> w.pages[node.addr] == old(w).pages[node.addr] && (on ==> !w.pages[node.addr].flag)
    {
      hide CanRun, Run, Tally, Pending, Sublist.Chained, Linked, AllBack, Offers, Onward, Moves;
      ghost var at := RetiredNode(node);
      ghost var start := w;
      Elapse();
      QuietFrozen(start, w, x);
      QuietOnward(start, w, x);
      QuietOnward(start, w, node.addr);
      on := w.pages[node.addr].onStack;
      ReachableRetired(trace, node.addr);
    }

    /** A drained page: reclaimed if it is idle and promoted if it has capacity,
        both only after winning its flag. */
    method Offer(node: PageNode, ghost k: nat, ghost x: PageId) returns (promoted: bool)
      requires Valid() && 0 < k <= |retired.nodes| && retired.nodes[k - 1] == node
      modifies this`cursor, this`w, this`trace, this`tally, this`nodeAt, this`stats, active, active.nodes, retired, retired.nodes
      ensures old(trace) <= trace
      ensures promoted ==> HasCapacity(old(w).pages[node.addr]) && !Idle(old(w).pages[node.addr])
      ensures !promoted && stats == old(stats) ==> !HasCapacity(old(w).pages[node.addr])
      ensures Idle(old(w).pages[node.addr]) && old(w).pages[node.addr].flag ==> !promoted && stats == old(stats).Reclaim(BySweep) && node.addr !in w.pages
      ensures !promoted ==> Onward(old(w), w, x) && (HasCapacity(old(w).pages[node.addr]) ==> !Tracked(w, node.addr))
      ensures !promoted ==> w.pages.Keys <= old(w).pages.Keys && (x != node.addr ==> FrozenIn(old(w), w, x))
      ensures Valid() && node.addr in old(w).retired
      ensures promoted ==> Served(node) && w.active == Fitted(node.addr, old(w).active) && Promoted(old(w), old(Rotation()), old(stats), node.addr, w, Rotation(), stats)
      ensures promoted ==> EvictionStats(old(stats).Promote(BySweep), stats)
      ensures promoted ==> MaybeArrived(retired.nodes, old(retired.nodes)[..k - 1] + old(retired.nodes)[k..])
      ensures !promoted ==> w.active == old(w).active && active.nodes == old(active.nodes)
      ensures !promoted ==>
                || (Removal(old(w), old(retired.nodes), k, w, retired.nodes) && stats == old(stats).Reclaim(BySweep))
                || (w.retired == old(w).retired && retired.nodes == old(retired.nodes)
                    && (stats == old(stats) || stats == old(stats).(lostRaces := old(stats).lostRaces + 1)))
    {
      hide CanRun, Run, Tally, Pending, Sublist.Chained, Linked, Named, Balanced, Subset;
      hide MaybeArrived, AllBack, Onward, Offers, Quiet, Elsewhere, Moves, Did, EvictionStats;
      promoted := false;
      ghost var at := RetiredNode(node);
      RetiredDistinct();
      ghost var start := w;
      StandsOnward(w, w, x);
      var idle := Idle(w.pages[node.addr]);
      if idle || HasCapacity(w.pages[node.addr]) {
        var won := TryCancel(node, x);
        ghost var here, past := w, trace;
        DidGoesOn(old(trace), trace, if won then [Cancel(node.addr)] else []);
        if won && idle {
          at := ReclaimRetired(node, BySweep);
          DidGoesOn(past, trace, [Unlink, Reclaim]);
          StandsOnward(here, w, x);
          OnwardTrans(start, here, w, x);
        } else if won {
          at := PromoteRetired(node, BySweep);
          promoted := true;
        }
      }
    }

    /** The sweep at one page, which has `k - 1` pages ahead. A page on the ready
        stack is left to the ready queue. */
    method Examine(node: PageNode, ghost k: nat, ghost x: PageId) returns (promoted: bool)
      requires Valid() && 0 < k <= |retired.nodes| && retired.nodes[k - 1] == node
      modifies this`cursor, this`w, this`trace, this`tally, this`nodeAt, this`stats, active, active.nodes, retired, retired.nodes
      ensures old(trace) <= trace
      ensures node.addr in old(w).pages && old(w).pages[node.addr].onStack ==> Quiet(old(w), w) && stats == old(stats)
      ensures Due(old(w), node.addr) ==> !promoted && stats == old(stats).Reclaim(BySweep) && node.addr !in w.pages
      ensures !promoted ==> Onward(old(w), w, x) && (Offers(old(w).pages[node.addr]) ==> !Tracked(w, node.addr))
      ensures !promoted ==> w.pages.Keys <= old(w).pages.Keys && (x != node.addr ==> FrozenIn(old(w), w, x))
      ensures Valid() && node.addr in old(w).retired
      ensures promoted ==> Served(node) && w.active == Fitted(node.addr, old(w).active) && Promoted(old(w), old(Rotation()), old(stats), node.addr, w, Rotation(), stats)
      ensures promoted ==> EvictionStats(old(stats).Promote(BySweep), stats)
      ensures promoted ==> MaybeArrived(retired.nodes, old(retired.nodes)[..k - 1] + old(retired.nodes)[k..])
      ensures !promoted ==> w.active == old(w).active && active.nodes == old(active.nodes)
      ensures !promoted ==>
                || (Removal(old(w), old(retired.nodes), k, w, retired.nodes) && stats == old(stats).Reclaim(BySweep))
                || (w.retired == old(w).retired && retired.nodes == old(retired.nodes)
                    && (stats == old(stats) || stats == old(stats).(lostRaces := old(stats).lostRaces + 1)))
    {
      hide CanRun, Run, Tally, Pending, Sublist.Chained, Linked, Named, Balanced, Subset, MaybeArrived, AllBack, Onward, Offers, Quiet;
      ghost var at := RetiredNode(node);
      ghost var start := w;
      var on := LooksOnStack(node, x);
      if on {
        return false;
      }
      ghost var looked' := w;
      OffersStill(start, w, node.addr);
      var merged := DrainRetired(node, x);
      OnwardTrans(start, looked', w, x);
      ghost var drained := w;
      promoted := Offer(node, k, x);
      if !promoted { OnwardTrans(start, drained, w, x); }
    }

    lemma RetiredAlive(p: PageId)
      requires Coherent()
      ensures p in w.retired ==> p in w.pages
    {}

    lemma RetiredLinks(k: nat)
      requires Linked()
      ensures retired.tail == if retired.nodes == [] then null else retired.nodes[|retired.nodes| - 1]
      ensures 0 < k <= |retired.nodes| ==> retired.nodes[k - 1].prev == if k > 1 then retired.nodes[k - 2] else null
    {}

    lemma WhereTheSweepStarts(node: PageNode?)
      requires Coherent() && node == if cursor == null then retired.tail else cursor
      ensures CursorOk(Rotation()) && Left(Rotation()) <= |retired.nodes|
      ensures node == if Left(Rotation()) == 0 then null else retired.nodes[Left(Rotation()) - 1]
    {
      hide CanRun, Run, Tally, Pending, Sublist.Chained;
      CursorInRetired();
      RetiredLinks(0);
      RetiredDistinct();
      if cursor != null {
        var at := RetiredNode(cursor);
        IndexUnique(w.retired, at);
      }
    }

    method SetCursor(node: PageNode?)
      requires Valid() && (node != null ==> node in retired.nodes)
      modifies this`cursor
      ensures Valid() && cursor == node
    {
      hide CanRun, Run, Tally, Pending, Sublist.Chained;
      cursor := node;
    }

    /** One page of the sweep. If it is promoted the sweep is over, and the
        cursor is left at the page after it. */
    method SweepStep(node: PageNode, ghost k: nat, ghost start: Round, ghost examined: seq<PageId>, ghost x: PageId)
      returns (promoted: bool, prev: PageNode?)
      requires Valid() && 0 < k <= |retired.nodes| && retired.nodes[k - 1] == node
      requires Sweeping(start, w.retired, k, examined) && Followed(start, w.retired, k, examined, x)
      requires w.active != [] ==> w.active[|w.active| - 1] !in start.retired
      modifies this`cursor, this`w, this`trace, this`tally, this`nodeAt, this`stats, this`looked, active, active.nodes, retired, retired.nodes
      ensures old(trace) <= trace
      ensures Valid() && stats.evictions >= old(stats).evictions && stats.harvestCalls == old(stats).harvestCalls
      ensures looked == old(looked) + [node.addr] && (promoted ==> NextInRound(start, examined + [node.addr]))
      ensures stats.Promoted() == old(stats).Promoted() + (if promoted then 1 else 0) && stats.reclaimedByReady == old(stats).reclaimedByReady
      ensures promoted ==> Served(node) && w.active == Fitted(node.addr, old(w).active) && (x in w.retired ==> x in old(w).retired || IsTail(old(w), x))
      ensures !promoted ==> Onward(old(w), w, x) && (node.addr in old(w).pages && Offers(old(w).pages[node.addr]) ==> !Tracked(w, node.addr))
      ensures Due(old(w), node.addr) ==> !promoted && node.addr !in w.retired
      ensures !promoted ==> w.pages.Keys <= old(w).pages.Keys && (x != node.addr ==> FrozenIn(old(w), w, x)) && (x in w.retired ==> x in old(w).retired)
      ensures promoted && x in start.retired && x in w.retired && x !in examined + [node.addr] ==>
                Advances(start, Rotation(), |examined| + 1, stats.evictions - old(stats).evictions, x)
      ensures !promoted ==> w.active == old(w).active && active.nodes == old(active.nodes) && Subset(retired.nodes, old(retired.nodes))
      ensures !promoted ==> stats.evictions == old(stats).evictions && |retired.nodes| >= k - 1
      ensures !promoted ==> Sweeping(start, w.retired, k - 1, examined + [node.addr]) && Followed(start, w.retired, k - 1, examined + [node.addr], x)
      ensures !promoted ==> prev == if k == 1 then null else retired.nodes[k - 2]
    {
      hide CanRun, Run, Tally, Pending, Sublist.Chained, Linked, Named, Balanced, Advances, Promoted, Followed;
      hide Sweeping, MaybeArrived, Subset, AllBack, FrozenIn, Removal, IsTail, Without, NextInRound, CursorOk, NoDup, Onward, Offers, Tracked;
      prev := node.prev;
      looked := looked + [node.addr];
      SweepsInOrder(start, w.retired, k, examined);
      RetiredLinks(k);
      RetiredDistinct();
      RotationFacts();
      ghost var before, counted, round, nodes := w, stats, Rotation(), retired.nodes;
      promoted := Examine(node, k, x);
      RotationFacts();
      RetiredAlive(node.addr);
      if promoted {
        if k > 1 { StillThere(retired.nodes, nodes, k - 1, k - 2); }
        SweepLeaves(start, before, round, counted, k, examined, w, Rotation(), stats, x);
        SetCursor(prev);
      } else {
        SweepStays(start, before, nodes, k, examined, w, retired.nodes, x);
      }
    }

    /** The budgeted half of a harvest: resumes at the cursor, or at the tail if
        there is none, and moves toward the head. `x` is any page. */
    method Walk(ghost x: PageId) returns (r: PageNode?, ghost examined: seq<PageId>)
      requires Valid()
      modifies this`cursor, this`w, this`trace, this`tally, this`nodeAt, this`stats, this`looked, this`walks, active, active.nodes, retired, retired.nodes
      ensures old(trace) <= trace
      ensures Valid() && stats.evictions >= old(stats).evictions
      ensures r != null ==> r in old(retired.nodes) && Served(r) && w.active == Fitted(r.addr, old(w).active) && examined != [] && r.addr == examined[|examined| - 1]
      ensures looked == old(looked) + examined && walks == old(walks) + 1 && NextInRound(old(Rotation()), examined)
      ensures stats.Promoted() == old(stats).Promoted() + (if r != null then 1 else 0) && stats.reclaimedByReady == old(stats).reclaimedByReady
      ensures r == null ==> w.active == old(w).active && stats.evictions == old(stats).evictions
      ensures r == null ==> Sweep(old(Rotation()), Rotation(), SWEEP_BUDGET, examined)
      ensures |examined| <= SWEEP_BUDGET && (examined == [] ==> w == old(w) && w.retired == [])
      ensures Due(old(w), x) && x in examined ==> x !in w.retired
      ensures r == null ==> w.pages.Keys <= old(w).pages.Keys && (x !in examined ==> DueKept(old(w), w, x)) && Onward(old(w), w, x)
      ensures r == null && x in examined && x in old(w).pages && Offers(old(w).pages[x]) ==> !Tracked(w, x)
      ensures r == null ==> (x in w.retired ==> x in old(w).retired)
      ensures stats.harvestCalls == old(stats).harvestCalls
      ensures x in w.retired ==> x in old(w).retired || IsTail(old(w), x)
      ensures x in old(w).retired && x in w.retired && x !in examined ==>
                Advances(old(Rotation()), Rotation(), |examined|, stats.evictions - old(stats).evictions, x)
    {
      hide CanRun, Run, Tally, Pending, Sublist.Chained, Linked, Named, Balanced, Advances, Promoted, Followed, Sweeping;
      hide Subset, Sweep, AllBack, NextInRound, CursorOk, NoDup, Due, FrozenIn, DueSwept, DueKept, Stats.Promoted, HasCapacity, Onward, Offers, Tracked;
      var node := cursor;
      if node == null {
        node := retired.tail;
      }
      WhereTheSweepStarts(node);
      RotationFacts();
      SubsetOfItself(retired.nodes);
      ghost var start, start' := Rotation(), w;
      ghost var k: nat := Left(start);
      examined, walks := [], walks + 1;
      SweepBegins(start, x);
      DueUnswept(w, x);
      var checked := 0;
      while node != null && checked < SWEEP_BUDGET
        invariant old(trace) <= trace
        invariant Valid() && w.active == old(w).active && stats.evictions == old(stats).evictions
        invariant active.nodes == old(active.nodes) && Subset(retired.nodes, old(retired.nodes))
        invariant examined == [] ==> w == old(w) && k == Left(start)
        invariant |examined| == checked <= SWEEP_BUDGET && k <= |retired.nodes|
        invariant Sweeping(start, w.retired, k, examined) && Followed(start, w.retired, k, examined, x)
        invariant DueSwept(start', w, examined, x)
        invariant w.pages.Keys <= start'.pages.Keys && stats.harvestCalls == old(stats).harvestCalls
        invariant x in w.retired ==> x in start.retired
        invariant stats.Promoted() == old(stats).Promoted() && stats.reclaimedByReady == old(stats).reclaimedByReady
        invariant looked == old(looked) + examined && walks == old(walks) + 1
        invariant node == if k == 0 then null else retired.nodes[k - 1]
      {
        SubsetReaches(retired.nodes, old(retired.nodes));
        ghost var nodes, here := retired.nodes, w;
        var promoted, prev := SweepStep(node, k, start, examined, x);
        ExaminedWasRetired(start, here.retired, k, examined, x);
        DueSweptOn(start', here, w, examined, node.addr, promoted, x);
        examined := examined + [node.addr];
        if promoted {
          return node, examined;
        }
        SubsetTrans(retired.nodes, nodes, old(retired.nodes));
        k := k - 1;
        node := prev;
        checked := checked + 1;
      }
      DueSweptEnds(start', w, examined, x);
      FinishSweep(node, k);
      SweepEnds(start, w.retired, k, SWEEP_BUDGET, examined, x);
      r := null;
    }

    method FinishSweep(node: PageNode?, ghost k: nat)
      requires Valid() && k <= |retired.nodes| && node == if k == 0 then null else retired.nodes[k - 1]
      modifies this`cursor
      ensures Valid() && k <= |w.retired| && Cur() == CursorAt(w.retired, k)
    {
      hide CanRun, Run, Tally, Pending, Sublist.Chained, Linked, Named;
      RetiredDistinct();
      SetCursor(node);
    }

    /** Looks in `retired` for a page to hand out: first the candidates of the
        ready stack, then a bounded sweep. Whatever it does, a page `x` that is
        left in `retired` unexamined is nearer to being examined. */
    method Harvest(ghost x: PageId) returns (r: PageNode?, ghost examined: seq<PageId>, ghost gone: seq<PageId>)
      requires Valid()
      modifies this`cursor, this`w, this`trace, this`tally, this`nodeAt, this`stats, this`looked, this`walks, active, active.nodes, retired, retired.nodes
      ensures old(trace) <= trace
      ensures Valid() && stats.evictions >= old(stats).evictions && |examined| <= SWEEP_BUDGET
      ensures r != null ==> r in old(retired.nodes) && r.addr in old(w).retired && Served(r) && w.active == Fitted(r.addr, old(w).active)
      ensures looked == old(looked) + examined && stats.Misses() == old(stats).Misses() + (if r == null then 1 else 0)
      ensures NextInRound(RemovedAll(old(Rotation()), gone), examined)
      ensures r != null && examined != [] ==> r.addr == examined[|examined| - 1]
      ensures r == null ==> Sweep(RemovedAll(old(Rotation()), gone), Rotation(), SWEEP_BUDGET, examined)
      ensures r == null || examined != [] ==> stats.reclaimedByReady == old(stats).reclaimedByReady + |gone|
      ensures r == null ==> w.active == old(w).active && stats.evictions == old(stats).evictions
      ensures stats.harvestCalls == old(stats).harvestCalls + 1
      ensures Due(old(w), x) && x in examined ==> x !in w.retired
      ensures r == null && x in old(w).ready && x in old(w).pages && (AllBack(old(w).pages[x].slots) || Offers(old(w).pages[x])) ==> x !in w.pages
      ensures r == null ==> Onward(old(w), w, x) && (x in examined && x in old(w).pages && Offers(old(w).pages[x]) ==> !Tracked(w, x))
      ensures r == null && w.retired != [] ==> examined != []
      ensures x in old(w).retired && x in w.retired && x !in examined ==>
                Advances(old(Rotation()), Rotation(), |examined|, stats.evictions - old(stats).evictions, x)
    {
      hide CanRun, Run, Tally, Pending, Sublist.Chained, Linked, Named, Advances, Sweep;
      hide Subset, AllBack, NextInRound, RemovedAll, CursorOk, NoDup, Onward, Offers, Tracked;
      RotationFacts();
      RetiredNames();
      stats := stats.(harvestCalls := stats.harvestCalls + 1);
      ghost var start := w;
      r, gone := HarvestReady(x);
      examined := [];
      if r != null {
        gone := [];
        NothingNext(old(Rotation()));
      }
      if r == null {
        ghost var round := Rotation();
        SubsetReaches(retired.nodes, old(retired.nodes));
        ghost var here := w;
        r, examined := Walk(x);
        if r == null { WalkedOnward(start, here, w, x); }
        if x in old(w).retired && x in w.retired && x !in examined {
          AdvancesTrans(old(Rotation()), round, Rotation(), 0, |examined|, 0, stats.evictions - old(stats).evictions, x);
        }
      }
    }

    // Local-free reclaim.

    /** Time passes for other threads; nothing they do can reach an idle page. */
    method Pause(node: PageNode)
      requires Valid() && node.addr in nodeAt && nodeAt[node.addr] == node && Idle(w.pages[node.addr])
      modifies this`w, this`trace, this`tally
      ensures Did(old(trace), trace, [])
      ensures Valid() && w.active == old(w).active && w.retired == old(w).retired
      ensures Quiet(old(w), w)
      ensures node.addr in w.pages && w.pages[node.addr] == old(w).pages[node.addr]
    {
      hide CanRun, Run, Tally, Pending, Sublist.Chained, Linked, Moves;
      Elapse();
    }

    method IsLinked(page: PageNode) returns (found: PageNode?)
      requires Linked()
      ensures found == if page in retired.nodes then page else null
    {
      var node := retired.head;
      ghost var i := 0;
      while node != null
        invariant i <= |retired.nodes| && page !in retired.nodes[..i]
        invariant node == if i < |retired.nodes| then retired.nodes[i] else null
        decreases |retired.nodes| - i
      {
        if node == page {
          return node;
        }
        node := node.next;
        i := i + 1;
      }
      found := null;
    }

    lemma NodeIsLive(page: PageNode)
      requires Coherent() && page.addr in nodeAt
      ensures page.addr in w.pages
    {}

    lemma TrackedIsLinked(page: PageNode)
      requires Valid() && page.addr in nodeAt && nodeAt[page.addr] == page
      requires w.pages[page.addr].kind == InRetired
      ensures page in retired.nodes && 0 < |w.pages[page.addr].slots|
      ensures w.pages[page.addr].flag ==> !w.pages[page.addr].onStack
    {
      hide CanRun, Run, Tally, Pending, Sublist.Chained, Linked;
      ReachableRetired(trace, page.addr);
      assert w.retired[IndexOf(w.retired, page.addr)] == page.addr;
    }

    /** After a local free: destroys the page at once if that left it idle, and
        its size class is one the build reclaims this way. On an idle tracked
        page the handshake cannot be lost, whatever other threads do. */
    method ReclaimAfterLocalFree(page: PageNode?, slotSize: nat) returns (done: bool)
      requires Valid() && (page != null ==> page.addr in nodeAt && nodeAt[page.addr] == page)
      modifies this`cursor, this`w, this`trace, this`tally, this`nodeAt, this`stats, retired, retired.nodes
      ensures Valid() && w.active == old(w).active
      ensures done <==> page != null && Idle(old(w).pages[page.addr]) && MIN_SLOT_SIZE <= slotSize <= MAX_SLOT_SIZE
                        && old(w).pages[page.addr].kind == InRetired && old(w).pages[page.addr].flag
      ensures done ==> page.addr !in w.pages && stats == old(stats).Reclaim(ByLocalFree)
      ensures done ==> page.addr in old(w).retired && Rotation() == Removed(old(Rotation()), page.addr)
      ensures if done then Did(old(trace), trace, [Cancel(page.addr), Unlink, Reclaim]) else Did(old(trace), trace, [])
      ensures !done ==> Quiet(old(w), w)
      ensures done ==> w.pages.Keys == old(w).pages.Keys - {page.addr} && Elsewhere(old(w), w, page.addr)
      ensures !done ==> w.retired == old(w).retired && Cur() == old(Cur()) && stats == old(stats)
    {
      hide CanRun, Run, Tally, Pending, Sublist.Chained, Linked, Named, Moves, Quiet, Elsewhere, AllBack;
      done := false;
      ghost var start := w;
      QuietAtOnce(w);
      if page != null { NodeIsLive(page); }
      if page == null || !Idle(w.pages[page.addr]) {
        return;
      }
      Pause(page);
      ghost var first := w;
      if slotSize < MIN_SLOT_SIZE || slotSize > MAX_SLOT_SIZE || w.pages[page.addr].kind != InRetired || !w.pages[page.addr].flag {
        return;
      }
      TrackedIsLinked(page);
      var found := IsLinked(page);
      if found == null {
        return;
      }
      Pause(page);
      QuietTrans(start, first, w);
      ghost var second := w;
      if w.pages[page.addr].onStack {
        return;
      }
      done := TryCancel(page, page.addr);
      QuietElsewhere(start, second, w, page.addr);
      if !done { QuietTrans(start, second, w); }
      if done {
        ghost var cancelled := w;
        ghost var at := ReclaimRetired(page, ByLocalFree);
        ElsewhereGone(start, cancelled, w, page.addr);
      }
    }

    /** Puts slot `i` back on the page's free list. */
    method TakeBack(page: PageNode, i: nat)
      requires Valid() && CanLocalFree(w, page.addr, i)
      modifies this`w, this`trace, this`tally
      ensures Did(old(trace), trace, [LocalFree(page.addr, i)])
      ensures Valid() && w == DoLocalFree(old(w), page.addr, i)
    {
      hide CanRun, Run, Tally, Pending, Sublist.Chained, Linked, Moves;
      Do(LocalFree(page.addr, i));
    }

    /** The owner frees slot `i`; if that was the last object of a tracked page,
        the page goes too. */
    method FreeSlot(page: PageNode, i: nat, slotSize: nat) returns (reclaimed: bool)
      requires Valid() && page.addr in nodeAt && nodeAt[page.addr] == page && CanLocalFree(w, page.addr, i)
      modifies this`cursor, this`w, this`trace, this`tally, this`nodeAt, this`stats, retired, retired.nodes
      ensures Did(old(trace), trace, [LocalFree(page.addr, i)] + (if reclaimed then [Cancel(page.addr), Unlink, Reclaim] else []))
      ensures Valid() && w.active == old(w).active
      ensures var s := DoLocalFree(old(w), page.addr, i);
        && (reclaimed <==> Idle(s.pages[page.addr]) && MIN_SLOT_SIZE <= slotSize <= MAX_SLOT_SIZE
                           && s.pages[page.addr].kind == InRetired && s.pages[page.addr].flag)
      ensures reclaimed ==> page.addr !in w.pages && stats == old(stats).Reclaim(ByLocalFree)
      ensures reclaimed ==> page.addr in old(w).retired && Rotation() == Removed(old(Rotation()), page.addr)
      ensures !reclaimed ==> Quiet(DoLocalFree(old(w), page.addr, i), w)
      ensures !reclaimed ==> page.addr in w.pages && i < |w.pages[page.addr].slots| && w.pages[page.addr].slots[i] == Free
                             && w.pages[page.addr].freeCount == old(w).pages[page.addr].freeCount + 1
      ensures reclaimed ==> w.pages.Keys == old(w).pages.Keys - {page.addr}
      ensures Elsewhere(old(w), w, page.addr)
      ensures !reclaimed ==> w.retired == old(w).retired && Cur() == old(Cur()) && stats == old(stats)
    {
      hide CanRun, Run, Tally, Pending, Sublist.Chained, Linked, Named, Balanced, Moves, Quiet, Elsewhere, AllBack, SlotsStay;
      ghost var start := w;
      TakeBack(page, i);
      ghost var freed := w;
      reclaimed := ReclaimAfterLocalFree(page, slotSize);
      FreedElsewhere(start, freed, w, page.addr, i, reclaimed);
    }
  }
}
