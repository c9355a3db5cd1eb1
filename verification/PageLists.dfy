/** The intrusive doubly linked lists that hold an owner's pages. */
module PageLists {
  import opened Basics
  import opened ReadyProtocol

  class PageNode {
    const addr: PageId
    var prev: PageNode?
    var next: PageNode?

    constructor (addr: PageId)
      ensures this.addr == addr && prev == null && next == null
    {
      this.addr := addr;
      prev, next := null, null;
    }
  }

  /** `nodes` are the structs at the addresses `ids`, in order. */
  ghost predicate Names(nodes: seq<PageNode>, ids: seq<PageId>, nodeAt: map<PageId, PageNode>) {
    |nodes| == |ids| && forall i :: 0 <= i < |ids| ==> ids[i] in nodeAt && nodes[i] == nodeAt[ids[i]]
  }

  lemma NamesAt(nodes: seq<PageNode>, ids: seq<PageId>, nodeAt: map<PageId, PageNode>, k: nat)
    requires Names(nodes, ids, nodeAt) && k < |nodes|
    ensures |nodes| == |ids| && ids[k] in nodeAt && nodes[k] == nodeAt[ids[k]]
  {}

  lemma NamesSplice(nodes: seq<PageNode>, ids: seq<PageId>, nodeAt: map<PageId, PageNode>, k: nat)
    requires Names(nodes, ids, nodeAt) && k < |ids|
    ensures Names(nodes[..k] + nodes[k + 1..], ids[..k] + ids[k + 1..], nodeAt)
  {}

  lemma NamesToHead(nodes: seq<PageNode>, ids: seq<PageId>, nodeAt: map<PageId, PageNode>, k: nat)
    requires Names(nodes, ids, nodeAt) && k < |ids|
    ensures Names([nodes[k]] + (nodes[..k] + nodes[k + 1..]), [ids[k]] + (ids[..k] + ids[k + 1..]), nodeAt)
  {}

  ghost predicate Spells(nodes: seq<PageNode>, head: PageNode?, tail: PageNode?)
    reads nodes
  {
    && (nodes == [] ==> head == null && tail == null)
    && (nodes != [] ==> head == nodes[0] && tail == nodes[|nodes| - 1] && nodes[0].prev == null && nodes[|nodes| - 1].next == null)
    && (forall i {:trigger nodes[i].prev} :: 1 <= i < |nodes| ==> nodes[i].prev == nodes[i - 1])
    && (forall i {:trigger nodes[i].next} :: 0 <= i < |nodes| - 1 ==> nodes[i].next == nodes[i + 1])
  }

  /** The neighbours of node `at` have been linked to each other. */
  ghost predicate Bypassed(all: seq<PageNode>, at: nat, head: PageNode?, tail: PageNode?)
    requires at < |all|
    reads all
  {
    var before, after := if at == 0 then null else all[at - 1], if at + 1 == |all| then null else all[at + 1];
    && head == (if at == 0 then after else all[0]) && tail == (if at + 1 == |all| then before else all[|all| - 1])
    && (forall i {:trigger all[i].prev} :: 0 <= i < |all| && i != at ==> all[i].prev == if i == at + 1 then before else if i == 0 then null else all[i - 1])
    && (forall i {:trigger all[i].next} :: 0 <= i < |all| && i != at ==> all[i].next == if i + 1 == at then after else if i + 1 == |all| then null else all[i + 1])
  }

  lemma SpliceSpells(all: seq<PageNode>, at: nat, head: PageNode?, tail: PageNode?)
    requires at < |all| && Bypassed(all, at, head, tail)
    ensures Spells(all[..at] + all[at + 1..], head, tail)
  {
    var rest := all[..at] + all[at + 1..];
    assert forall i {:trigger rest[i]} :: 0 <= i < |rest| ==> rest[i] == if i < at then all[i] else all[i + 1];
  }

  /** One of the two lists (Hz10PageSublist). */
  class Sublist {
    var head: PageNode?
    var tail: PageNode?
    var length: nat
    ghost var nodes: seq<PageNode>

    ghost predicate Valid()
      reads this, nodes
    {
      length == |nodes| && Chained()
    }

    /** Head, tail and links spell out `nodes`, each node once. */
    ghost predicate Chained()
      reads this, nodes
    {
      NoDup(nodes) && Spells(nodes, head, tail)
    }

    constructor ()
      ensures Valid() && nodes == []
    {
      head, tail, length, nodes := null, null, 0, [];
    }

    method Prepend(page: PageNode)
      requires Valid() && page !in nodes
      modifies this, page, nodes
      ensures Valid() && nodes == [page] + old(nodes)
    {
      page.prev := null;
      page.next := head;
      if head != null {
        head.prev := page;
      } else {
        tail := page;
      }
      head := page;
      length := length + 1;
      nodes := [page] + nodes;
    }

    method PopTail() returns (node: PageNode)
      requires Valid() && tail != null
      modifies this, nodes
      ensures Valid() && old(nodes) == nodes + [node] && node.prev == null && node.next == null
    {
      node := tail;
      tail := node.prev;
      if tail != null {
        tail.next := null;
      } else {
        head := null;
      }
      length := length - 1;
      node.next := null;
      node.prev := null;
      nodes := nodes[..|nodes| - 1];
    }

    /** Unlinks `node` from wherever it sits. */
    method Remove(node: PageNode) returns (ghost at: nat)
      requires Valid() && node in nodes
      modifies this, nodes
      ensures Valid() && at < |old(nodes)| && old(nodes)[at] == node
      ensures nodes == old(nodes)[..at] + old(nodes)[at + 1..] && node.prev == null && node.next == null
    {
      at :| 0 <= at < |nodes| && nodes[at] == node;
      ghost var all := nodes;
      LinksAt(at);
      SpliceDistinct(all, at);
      if node.prev != null {
        node.prev.next := node.next;
      } else {
        head := node.next;
      }
      if node.next != null {
        node.next.prev := node.prev;
      } else {
        tail := node.prev;
      }
      length := length - 1;
      node.next := null;
      node.prev := null;
      hide NoDup;
      assert forall i {:trigger all[i].prev} :: 0 <= i < |all| && i != at && i != at + 1 ==> all[i].prev == old(all[i].prev) by { Distinct(all); }
      assert forall i {:trigger all[i].next} :: 0 <= i < |all| && i != at && i + 1 != at ==> all[i].next == old(all[i].next) by { Distinct(all); }
      nodes := all[..at] + all[at + 1..];
      hide Spells;
      SpliceSpells(all, at, head, tail);
    }

    lemma LinksAt(k: nat)
      requires Chained() && k < |nodes|
      ensures nodes[k].prev == if k == 0 then null else nodes[k - 1]
      ensures nodes[k].next == if k + 1 == |nodes| then null else nodes[k + 1]
    {}
  }

  lemma Distinct(xs: seq<PageNode>)
    requires NoDup(xs)
    ensures forall i, j :: 0 <= i < |xs| && 0 <= j < |xs| && i != j ==> xs[i] != xs[j]
  {}

  lemma SpliceDistinct(xs: seq<PageNode>, at: nat)
    requires NoDup(xs) && at < |xs|
    ensures NoDup(xs[..at] + xs[at + 1..]) && xs[at] !in xs[..at] + xs[at + 1..]
  {}

  lemma {:induction false} WithoutAt(xs: seq<PageId>, at: nat)
    requires at < |xs| && NoDup(xs)
    ensures Without(xs, xs[at]) == xs[..at] + xs[at + 1..]
  {
    if at > 0 {
      WithoutAt(xs[1..], at - 1);
    }
  }
}
