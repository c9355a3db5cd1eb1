/** The counters a class keeps, and what they must add up to over a run. */
module ClassCounters {
  import opened ReadyProtocol

  /** The list's counters. */
  datatype Stats = Stats(evictions: nat, evictionReclaimed: nat, retired: nat, maxRetired: nat,
                         reclaimedBySweep: nat, promotedBySweep: nat, harvestCalls: nat,
                         reclaimedByReady: nat, promotedByReady: nat, reclaimedByLocalFree: nat,
                         falsePositives: nat, staleGenerations: nat, lostRaces: nat)
  {
    function Promoted(): nat { promotedBySweep + promotedByReady }
    /** The harvests that came back empty-handed. */
    function Misses(): int { harvestCalls - Promoted() }
    function Left(): nat { Promoted() + reclaimedBySweep + reclaimedByReady + reclaimedByLocalFree }

    function Reclaim(via: Finder): Stats {
      match via
      case ByReady => this.(reclaimedByReady := reclaimedByReady + 1)
      case BySweep => this.(reclaimedBySweep := reclaimedBySweep + 1)
      case ByLocalFree => this.(reclaimedByLocalFree := reclaimedByLocalFree + 1)
    }

    /** Local frees promote nothing. */
    function Promote(via: Finder): Stats
      requires via != ByLocalFree
    {
      if via == ByReady then this.(promotedByReady := promotedByReady + 1) else this.(promotedBySweep := promotedBySweep + 1)
    }
  }

  /** What found that a retired page has something to offer. */
  datatype Finder = ByReady | BySweep | ByLocalFree

  datatype Tallies = Tallies(creates: nat, peak: nat)

  /** How many pages the run created, and the longest `retired` ever was. */
  ghost function Tally(es: seq<Event>): Tallies
    requires CanRun(INIT, es)
  {
    if es == [] then Tallies(0, 0)
    else
      var t := Tally(es[..|es| - 1]);
      var length := |Run(INIT, es).retired|;
      Tallies(t.creates + (if es[|es| - 1].Create? then 1 else 0), if length > t.peak then length else t.peak)
  }

  lemma PeakBounds(es: seq<Event>)
    requires CanRun(INIT, es)
    ensures |Run(INIT, es).retired| <= Tally(es).peak
  {}

  /** What the counters record: where every page that ever entered `active` or
      `retired` went. `inHand` pages are between the lists. */
  ghost predicate Balanced(n: Stats, s: State, t: Tallies, inHand: nat) {
    && n.evictions == n.evictionReclaimed + n.retired
    && |s.retired| + n.Left() == n.retired
    && |s.active| + n.evictions + inHand == t.creates + n.Promoted()
    && n.maxRetired == t.peak
  }

  lemma EmptyRun()
    ensures CanRun(INIT, []) && Run(INIT, []) == INIT && Tally([]) == Tallies(0, 0)
  {}

  lemma EmptyIsBalanced(n: Stats, s: State, t: Tallies)
    requires |s.active| == 0 && |s.retired| == 0 && t.creates == 0 && t.peak == 0
    requires n.evictions == 0 && n.evictionReclaimed == 0 && n.retired == 0 && n.maxRetired == 0 && n.Left() == 0
    ensures Balanced(n, s, t, 0)
  {}

  /** One eviction: the tail of `active` was destroyed or retired. */
  lemma BalancedAfterEviction(n: Stats, s: State, t: Tallies, n': Stats, s': State, t': Tallies)
    requires Balanced(n, s, t, 0) && |s'.active| + 1 == |s.active| && t'.creates == t.creates && n'.maxRetired == t'.peak
    requires || (|s'.retired| == |s.retired| && n' == n.(evictions := n.evictions + 1, evictionReclaimed := n.evictionReclaimed + 1))
             || (|s'.retired| == |s.retired| + 1
                 && n' == n.(evictions := n.evictions + 1, retired := n.retired + 1, maxRetired := n'.maxRetired))
    ensures Balanced(n', s', t', 0)
  {}

  lemma BalancedAfterReclaim(n: Stats, s: State, s': State, t: Tallies, via: Finder)
    requires Balanced(n, s, t, 0) && |s'.retired| + 1 == |s.retired| && |s'.active| == |s.active|
    ensures Balanced(n.Reclaim(via), s', t, 0)
  {}

  lemma BalancedInPromotion(n: Stats, s: State, s': State, t: Tallies, via: Finder)
    requires Balanced(n, s, t, 0) && |s'.retired| + 1 == |s.retired| && |s'.active| == |s.active| && via != ByLocalFree
    ensures Balanced(n.Promote(via), s', t, 1)
  {}
}
