/** The capped pool of free quanta: a linked list threaded through the quanta
    themselves, newest first, with a sweep that gives back what has been idle
    for too long. */
module PagePool {
  import opened Basics

  const WORD64: nat := 0x1_0000_0000_0000_0000

  /** The first words of a pooled quantum. */
  class PoolNode {
    const base: nat
    var next: PoolNode?
    var releasedAt: nat

    constructor (base: nat)
      ensures this.base == base
    {
      this.base, next, releasedAt := base, null, 0;
    }
  }

  function Bases(nodes: seq<PoolNode>): (r: seq<nat>)
    ensures |r| == |nodes|
    ensures forall i :: 0 <= i < |r| ==> r[i] == nodes[i].base
  {
    seq(|nodes|, i requires 0 <= i < |nodes| => nodes[i].base)
  }

  /** Unsigned: a clock that went backwards makes a node look very old. */
  function IdleTime(now: nat, releasedAt: nat): nat {
    (now - releasedAt) % WORD64
  }

  predicate TooIdle(now: nat, limit: nat, releasedAt: nat) {
    IdleTime(now, releasedAt) >= limit
  }

  /** The nodes that have been in the pool for at least `limit`. */
  ghost function Old(nodes: seq<PoolNode>, now: nat, limit: nat): set<PoolNode>
    reads nodes`releasedAt
  {
    set n | n in nodes && TooIdle(now, limit, n.releasedAt)
  }

  /** The nodes that stay, in order. */
  ghost function Kept(nodes: seq<PoolNode>, idle: set<PoolNode>): (r: seq<PoolNode>)
    ensures forall x :: x in r ==> x in nodes && x !in idle
    ensures forall x :: x in nodes && x !in idle ==> x in r
    ensures |r| <= |nodes|
  {
    if nodes == [] then []
    else
      assert nodes == nodes[..|nodes| - 1] + [nodes[|nodes| - 1]];
      Kept(nodes[..|nodes| - 1], idle) + (if nodes[|nodes| - 1] in idle then [] else [nodes[|nodes| - 1]])
  }

  /** The nodes that go, last one first. */
  ghost function Gone(nodes: seq<PoolNode>, idle: set<PoolNode>): (r: seq<PoolNode>)
    ensures forall x :: x in r ==> x in nodes && x in idle
    ensures forall x :: x in nodes && x in idle ==> x in r
    ensures |r| + |Kept(nodes, idle)| == |nodes|
  {
    if nodes == [] then []
    else
      assert nodes == nodes[..|nodes| - 1] + [nodes[|nodes| - 1]];
      (if nodes[|nodes| - 1] in idle then [nodes[|nodes| - 1]] else []) + Gone(nodes[..|nodes| - 1], idle)
  }

  lemma {:induction false} FiltersDistinct(nodes: seq<PoolNode>, idle: set<PoolNode>)
    requires NoDup(nodes)
    ensures NoDup(Kept(nodes, idle)) && NoDup(Gone(nodes, idle))
  {
    if nodes != [] {
      FiltersDistinct(nodes[..|nodes| - 1], idle);
      assert nodes[|nodes| - 1] !in nodes[..|nodes| - 1];
    }
  }

  lemma {:induction false} KeptIsPrefix(nodes: seq<PoolNode>, idle: set<PoolNode>, k: nat)
    requires k <= |nodes| && forall i :: 0 <= i < |nodes| ==> (nodes[i] in idle <==> k <= i)
    ensures Kept(nodes, idle) == nodes[..k]
  {
    if nodes != [] {
      var n := |nodes| - 1;
      KeptIsPrefix(nodes[..n], idle, if k <= n then k else n);
      if k <= n {
        assert nodes[..n][..k] == nodes[..k];
      } else {
        assert nodes[..n] + [nodes[n]] == nodes;
      }
    }
  }

  /** Newest first, and nothing from the future. */
  ghost predicate Sorted(nodes: seq<PoolNode>, now: nat)
    reads nodes`releasedAt
  {
    && now < WORD64
    && (forall i, j :: 0 <= i < j < |nodes| ==> nodes[i].releasedAt >= nodes[j].releasedAt)
    && (forall i :: 0 <= i < |nodes| ==> nodes[i].releasedAt <= now)
  }

  /** With a clock that only moves forward the sweep is one cut of the list. */
  lemma SweepIsACut(nodes: seq<PoolNode>, now: nat, limit: nat) returns (k: nat)
    requires Sorted(nodes, now)
    ensures k <= |nodes| && Kept(nodes, Old(nodes, now, limit)) == nodes[..k]
    ensures forall i :: 0 <= i < |nodes| ==> (k <= i <==> now - nodes[i].releasedAt >= limit)
  {
    k := 0;
    while k < |nodes| && now - nodes[k].releasedAt < limit
      invariant k <= |nodes| && forall i :: 0 <= i < k ==> now - nodes[i].releasedAt < limit
    {
      k := k + 1;
    }
    forall i | 0 <= i < |nodes| ensures TooIdle(now, limit, nodes[i].releasedAt) <==> now - nodes[i].releasedAt >= limit {
      assert (now - nodes[i].releasedAt) % WORD64 == now - nodes[i].releasedAt;
    }
    KeptIsPrefix(nodes, Old(nodes, now, limit), k);
  }

  lemma KeptStaysSorted(nodes: seq<PoolNode>, now: nat, limit: nat)
    ensures Sorted(nodes, now) ==> Kept(nodes, Old(nodes, now, limit)) <= nodes && Sorted(Kept(nodes, Old(nodes, now, limit)), now)
  {
    if Sorted(nodes, now) {
      var cut := SweepIsACut(nodes, now, limit);
    }
  }

  class Pool {
    var head: PoolNode?
    var count: nat
    var cap: nat
    var reuses: nat
    var releases: nat
    var purged: nat
    ghost var nodes: seq<PoolNode>
    ghost var cachings: nat

    constructor (cap: nat)
      ensures Valid() && nodes == [] && this.cap == cap && cachings == 0
    {
      head, count, this.cap, reuses, releases, purged, nodes, cachings := null, 0, cap, 0, 0, 0, [], 0;
    }

    /** The list is well linked; every node that was ever cached is still here,
        was reused, or was purged. */
    ghost predicate Valid()
      reads this, nodes
    {
      Chained() && count == |nodes| && cachings == count + reuses + purged
    }

    ghost predicate Chained()
      reads this, nodes
    {
      NoDup(nodes) && Links(nodes, head, null)
    }

    /** Takes the newest node; `stale` is an emptiness peek that came too early. */
    method TryAcquire(stale: bool) returns (node: PoolNode?)
      requires Valid()
      modifies this
      ensures Valid() && cap == old(cap) && releases == old(releases) && purged == old(purged) && cachings == old(cachings)
      ensures node == null <==> stale || old(nodes) == []
      ensures node == null ==> nodes == old(nodes) && reuses == old(reuses)
      ensures node != null ==> old(nodes) == [node] + nodes && reuses == old(reuses) + 1
    {
      if stale || head == null {
        return null;
      }
      node := head;
      head := node.next;
      count := count - 1;
      reuses := reuses + 1;
      nodes := nodes[1..];
    }

    /** Caches the quantum, unless the pool is at its cap. */
    method Release(node: PoolNode, now: nat) returns (cached: bool)
      requires Valid() && node !in nodes
      modifies this, node
      ensures Valid() && cap == old(cap) && reuses == old(reuses) && purged == old(purged)
      ensures cached <==> |old(nodes)| < cap
      ensures cached ==> nodes == [node] + old(nodes) && node.releasedAt == now && |nodes| <= cap && releases == old(releases)
      ensures !cached ==> nodes == old(nodes) && releases == old(releases) + 1
      ensures cachings == old(cachings) + (if cached then 1 else 0)
      ensures old(Sorted(nodes, now)) ==> Sorted(nodes, now)
    {
      cached := count < cap;
      if cached {
        node.next := head;
        node.releasedAt := now;
        head := node;
        count := count + 1;
        nodes := [node] + nodes;
        cachings := cachings + 1;
      } else {
        releases := releases + 1;
      }
    }

    /** Unlinks in place every node idle for at least `limit` and keeps the rest
        in order; `gone` is given back to the system. */
    method PurgeIdle(now: nat, limit: nat) returns (bases: seq<nat>, ghost gone: seq<PoolNode>)
      requires Valid()
      modifies this, nodes`next
      ensures Valid() && cap == old(cap) && reuses == old(reuses) && releases == old(releases) && cachings == old(cachings)
      ensures nodes == Kept(old(nodes), old(Old(nodes, now, limit))) && gone == Gone(old(nodes), old(Old(nodes, now, limit)))
      ensures bases == Bases(gone) && purged == old(purged) + |gone|
      ensures old(Sorted(nodes, now)) ==> Sorted(nodes, now) && nodes <= old(nodes)
    {
      hide Kept, Gone, Links, Old, NoDup, Sorted;
      ghost var all, idle := nodes, Old(nodes, now, limit);
      KeptStaysSorted(all, now, limit);
      var newHead, purgedHead, removed := UnlinkIdle(head, now, limit, all, idle);
      count := count - removed;
      if purgedHead != null {
        head := newHead;
      }
      nodes, gone := Kept(all, idle), Gone(all, idle);
      bases := BasesOf(purgedHead, gone);
      purged := purged + |bases|;
    }

    method SetCap(newCap: nat) returns (previous: nat)
      requires Valid()
      modifies this`cap
      ensures Valid() && previous == old(cap) && cap == newCap
    {
      previous := cap;
      cap := newCap;
    }
  }

  /** From `first`, the links visit `nodes` in order and arrive at `end`. */
  ghost predicate Links(nodes: seq<PoolNode>, first: PoolNode?, end: PoolNode?)
    reads nodes`next
  {
    && first == (if nodes == [] then end else nodes[0])
    && (nodes != [] ==> nodes[|nodes| - 1].next == end)
    && forall i {:trigger nodes[i].next} :: 0 <= i < |nodes| - 1 ==> nodes[i].next == nodes[i + 1]
  }

  /** The sweep of `all` is at its `k`-th node: behind it the kept nodes are
      relinked and the others listed, before it nothing has changed. */
  ghost predicate Sweeping(all: seq<PoolNode>, idle: set<PoolNode>, k: nat, node: PoolNode?, newHead: PoolNode?, prev: PoolNode?, purgedHead: PoolNode?)
    requires k <= |all|
    reads all`next
  {
    var kept, gone := Kept(all[..k], idle), Gone(all[..k], idle);
    assert forall i :: 0 <= i < |kept| ==> kept[i] in kept;
    assert forall i :: 0 <= i < |gone| ==> gone[i] in gone;
    && Links(kept, newHead, node) && Links(all[k..], node, null) && Links(gone, purgedHead, null)
    && prev == if kept == [] then null else kept[|kept| - 1]
  }

  lemma SweepStarts(all: seq<PoolNode>, idle: set<PoolNode>, head: PoolNode?)
    requires Links(all, head, null)
    ensures Sweeping(all, idle, 0, head, head, null, null) && |Gone(all[..0], idle)| == 0
  {
    assert all[0..] == all && all[..0] == [];
  }

  lemma SweepDone(all: seq<PoolNode>, idle: set<PoolNode>, k: nat, newHead: PoolNode?, prev: PoolNode?, purgedHead: PoolNode?)
    requires k <= |all| && NoDup(all) && Sweeping(all, idle, k, null, newHead, prev, purgedHead)
    ensures k == |all| && all[..k] == all
    ensures Links(Kept(all, idle), newHead, null) && Links(Gone(all, idle), purgedHead, null)
    ensures NoDup(Kept(all, idle)) && NoDup(Gone(all, idle))
    ensures purgedHead == null ==> Gone(all, idle) == [] && Kept(all, idle) == all
  {
    assert all[k..] == [];
    assert all[..k] == all;
    FiltersDistinct(all, idle);
    if purgedHead == null {
      assert Gone(all, idle) == [];
      forall i | 0 <= i < |all| ensures all[i] !in idle { assert all[i] in all; }
      KeptIsPrefix(all, idle, |all|);
    }
  }

  /** One node of the sweep. */
  method Visit(node: PoolNode, newHead: PoolNode?, prev: PoolNode?, purgedHead: PoolNode?, now: nat, limit: nat,
               ghost all: seq<PoolNode>, ghost idle: set<PoolNode>, ghost k: nat)
    returns (next: PoolNode?, newHead': PoolNode?, prev': PoolNode?, purgedHead': PoolNode?, went: bool)
    requires k <= |all| && NoDup(all) && Sweeping(all, idle, k, node, newHead, prev, purgedHead) && idle == Old(all, now, limit)
    modifies all`next
    ensures k < |all| && Sweeping(all, idle, k + 1, next, newHead', prev', purgedHead')
    ensures |Gone(all[..k + 1], idle)| == |Gone(all[..k], idle)| + (if went then 1 else 0)
    ensures !went ==> newHead' == newHead
  {
    hide Kept, Gone, NoDup, Sweeping, Links, Old;
    AtNode(all, idle, k, node, newHead, prev, purgedHead);
    next := node.next;
    PrefixStep(all, k, idle);
    went := TooIdle(now, limit, node.releasedAt);
    assert went <==> node in idle by { OldIs(all, now, limit, k); }
    ghost var kept, gone := Kept(all[..k], idle), Gone(all[..k], idle);
    newHead', prev', purgedHead' := newHead, prev, purgedHead;
    if went {
      newHead' := Unlink(prev, node, newHead, purgedHead, kept, all[k + 1..], gone);
      purgedHead' := node;
    } else {
      LinksExtend(kept, newHead, node, next);
      prev' := node;
    }
    SweepAt(all, idle, k + 1, next, newHead', prev', purgedHead', if went then kept else kept + [node], if went then [node] + gone else gone);
  }

  lemma OldIs(all: seq<PoolNode>, now: nat, limit: nat, k: nat)
    requires k < |all|
    ensures all[k] in Old(all, now, limit) <==> TooIdle(now, limit, all[k].releasedAt)
  {
    assert all[k] in all;
  }

  /** What the sweep knows at its `k`-th node. */
  lemma AtNode(all: seq<PoolNode>, idle: set<PoolNode>, k: nat, node: PoolNode, newHead: PoolNode?, prev: PoolNode?, purgedHead: PoolNode?)
    requires k <= |all| && Sweeping(all, idle, k, node, newHead, prev, purgedHead)
    ensures k < |all| && all[k] == node
    ensures var kept, gone := Kept(all[..k], idle), Gone(all[..k], idle);
      && Links(kept, newHead, node) && Links(all[k + 1..], node.next, null) && Links(gone, purgedHead, null)
      && prev == if kept == [] then null else kept[|kept| - 1]
  {
    hide Kept, Gone;
    TailLinks(all, k, node.next);
  }

  lemma SweepAt(all: seq<PoolNode>, idle: set<PoolNode>, k: nat, node: PoolNode?, newHead: PoolNode?, prev: PoolNode?, purgedHead: PoolNode?,
                kept: seq<PoolNode>, gone: seq<PoolNode>)
    requires k <= |all| && kept == Kept(all[..k], idle) && gone == Gone(all[..k], idle)
    requires Links(kept, newHead, node) && Links(all[k..], node, null) && Links(gone, purgedHead, null)
    requires prev == if kept == [] then null else kept[|kept| - 1]
    ensures Sweeping(all, idle, k, node, newHead, prev, purgedHead)
  {
    hide Kept, Gone;
  }

  lemma TailLinks(all: seq<PoolNode>, k: nat, next: PoolNode?)
    requires k < |all| && Links(all[k..], all[k], null) && next == all[k].next
    ensures Links(all[k + 1..], next, null)
  {
    assert all[k..][1..] == all[k + 1..];
    assert forall i {:trigger all[k + 1..][i]} :: 0 <= i < |all| - k - 1 ==> all[k + 1..][i] == all[k..][i + 1];
  }

  lemma LinksExtend(kept: seq<PoolNode>, first: PoolNode?, node: PoolNode, next: PoolNode?)
    requires Links(kept, first, node) && next == node.next
    ensures Links(kept + [node], first, next)
  {}

  /** Takes `node`, which follows `prev`, out of the list and puts it in front
      of the purged ones. */
  method Unlink(prev: PoolNode?, node: PoolNode, first: PoolNode?, purgedHead: PoolNode?,
                ghost kept: seq<PoolNode>, ghost rest: seq<PoolNode>, ghost gone: seq<PoolNode>)
    returns (newFirst: PoolNode?)
    requires NoDup(kept) && node !in kept && node !in rest && node !in gone
    requires (forall x :: x in kept ==> x !in rest) && (forall x :: x in kept ==> x !in gone)
    requires Links(kept, first, node) && Links(rest, node.next, null) && Links(gone, purgedHead, null)
    requires prev == if kept == [] then null else kept[|kept| - 1]
    modifies kept`next, node`next
    ensures Links(kept, newFirst, old(node.next)) && Links(rest, old(node.next), null) && Links([node] + gone, node, null)
  {
    newFirst := first;
    var next := node.next;
    if prev != null {
      prev.next := next;
    } else {
      newFirst := next;
    }
    node.next := purgedHead;
  }

  lemma KeptWithin(all: seq<PoolNode>, k: nat, idle: set<PoolNode>)
    requires k <= |all|
    ensures forall i :: 0 <= i < |Kept(all[..k], idle)| ==> Kept(all[..k], idle)[i] in all && Kept(all[..k], idle)[i] !in idle
  {
    var kept := Kept(all[..k], idle);
    forall i | 0 <= i < |kept| ensures kept[i] in all && kept[i] !in idle {
      assert kept[i] in kept;
      var j :| 0 <= j < k && all[..k][j] == kept[i];
      assert all[j] == kept[i];
    }
  }

  lemma PrefixApart(all: seq<PoolNode>, k: nat)
    requires k < |all| && NoDup(all)
    ensures all[k] !in all[..k] && all[k] !in all[k + 1..] && forall x :: x in all[k + 1..] ==> x !in all[..k]
    ensures NoDup(all[..k])
  {}

  lemma PrefixStep(all: seq<PoolNode>, k: nat, idle: set<PoolNode>)
    requires k < |all| && NoDup(all)
    ensures all[k] !in all[..k] && all[k] !in all[k + 1..] && forall x :: x in all[k + 1..] ==> x !in all[..k]
    ensures NoDup(Kept(all[..k], idle)) && NoDup(Gone(all[..k], idle))
    ensures forall i :: 0 <= i < |Kept(all[..k], idle)| ==> Kept(all[..k], idle)[i] in all && Kept(all[..k], idle)[i] !in idle
    ensures Kept(all[..k + 1], idle) == Kept(all[..k], idle) + (if all[k] in idle then [] else [all[k]])
    ensures Gone(all[..k + 1], idle) == (if all[k] in idle then [all[k]] else []) + Gone(all[..k], idle)
  {
    hide Kept, Gone, NoDup;
    PrefixApart(all, k);
    FiltersDistinct(all[..k], idle);
    FiltersStep(all, k, idle);
    KeptWithin(all, k, idle);
  }

  lemma FiltersStep(all: seq<PoolNode>, k: nat, idle: set<PoolNode>)
    requires k < |all|
    ensures Kept(all[..k + 1], idle) == Kept(all[..k], idle) + (if all[k] in idle then [] else [all[k]])
    ensures Gone(all[..k + 1], idle) == (if all[k] in idle then [all[k]] else []) + Gone(all[..k], idle)
  {
    assert all[..k + 1][..k] == all[..k];
  }

  /** The sweep itself. */
  method UnlinkIdle(head: PoolNode?, now: nat, limit: nat, ghost all: seq<PoolNode>, ghost idle: set<PoolNode>)
    returns (newHead: PoolNode?, purgedHead: PoolNode?, removed: nat)
    requires NoDup(all) && Links(all, head, null) && idle == Old(all, now, limit)
    modifies all`next
    ensures Links(Kept(all, idle), newHead, null) && Links(Gone(all, idle), purgedHead, null)
    ensures NoDup(Kept(all, idle)) && NoDup(Gone(all, idle)) && removed == |Gone(all, idle)|
    ensures purgedHead == null ==> Gone(all, idle) == [] && Kept(all, idle) == all && newHead == head
  {
    hide Kept, Gone, Links, Sweeping, Old, NoDup;
    ghost var k: nat := 0;
    var prev: PoolNode?, node := null, head;
    newHead, purgedHead, removed := head, null, 0;
    SweepStarts(all, idle, head);
    while node != null
      invariant k <= |all| && Sweeping(all, idle, k, node, newHead, prev, purgedHead)
      invariant removed == |Gone(all[..k], idle)| && (removed == 0 ==> newHead == head)
      decreases |all| - k
    {
      var went;
      node, newHead, prev, purgedHead, went := Visit(node, newHead, prev, purgedHead, now, limit, all, idle, k);
      if went {
        removed := removed + 1;
      }
      k := k + 1;
    }
    SweepDone(all, idle, k, newHead, prev, purgedHead);
  }

  /** The quanta of a list, in order. */
  method BasesOf(first: PoolNode?, ghost nodes: seq<PoolNode>) returns (bases: seq<nat>)
    requires NoDup(nodes) && Links(nodes, first, null)
    ensures bases == Bases(nodes)
  {
    var node := first;
    bases := [];
    while node != null
      invariant |bases| <= |nodes| && node == (if |bases| < |nodes| then nodes[|bases|] else null)
      invariant forall i :: 0 <= i < |bases| ==> bases[i] == nodes[i].base
      decreases |nodes| - |bases|
    {
      bases := bases + [node.base];
      node := node.next;
    }
  }
}
