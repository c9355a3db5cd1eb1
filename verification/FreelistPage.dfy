/** One page of equal slots, as its owner sees it: a freelist threaded through
    the free slots' first words, and, in builds that bump, slots never handed
    out yet. */
module FreelistPage {
  import opened Basics
  import opened Routing

  const NULL: nat := 0

  function Addr(base: nat, slotSize: nat, i: nat): nat {
    base + i * slotSize
  }

  lemma AddrApart(base: nat, slotSize: nat, i: nat, j: nat)
    requires slotSize > 0 && i != j
    ensures Addr(base, slotSize, i) != Addr(base, slotSize, j)
  {
    SlotsAreApart(base, Entry(slotSize, i + j + 1, 0), if i < j then i else j, if i < j then j else i);
  }

  /** From `head`, the links visit the slots `chain` in order and end in null. */
  predicate Spells(base: nat, slotSize: nat, link: map<nat, nat>, head: nat, chain: seq<nat>)
    decreases |chain|
  {
    if chain == [] then head == NULL
    else head == Addr(base, slotSize, chain[0]) && head in link && Spells(base, slotSize, link, link[head], chain[1..])
  }

  /** A word that is not in the chain may change. */
  lemma {:induction false} SpellsFrame(base: nat, slotSize: nat, link: map<nat, nat>, head: nat, chain: seq<nat>, i: nat, v: nat)
    requires Spells(base, slotSize, link, head, chain) && i !in chain && slotSize > 0
    ensures Spells(base, slotSize, link[Addr(base, slotSize, i) := v], head, chain)
    decreases |chain|
  {
    if chain != [] {
      AddrApart(base, slotSize, i, chain[0]);
      SpellsFrame(base, slotSize, link, link[head], chain[1..], i, v);
    }
  }

  function From(i: nat, n: nat): (r: seq<nat>)
    requires i <= n
    ensures |r| == n - i
    ensures forall k :: 0 <= k < n - i ==> r[k] == i + k
  {
    seq(n - i, k requires 0 <= k < n - i => i + k)
  }

  class Page {
    const base: nat
    const slotSize: nat
    const slotCount: nat
    var head: nat
    var link: map<nat, nat>
    var bumpIndex: nat
    var freeCount: nat
    ghost var chain: seq<nat>

    ghost predicate Valid()
      reads this
    {
      && base > 0 && slotSize > 0 && NoDup(chain) && bumpIndex <= slotCount
      && Spells(base, slotSize, link, head, chain)
      && (forall i :: i in chain ==> i < bumpIndex)
      && freeCount == |chain| + (slotCount - bumpIndex)
    }

    /** Slot `i` can be handed out. */
    ghost predicate IsFree(i: nat)
      reads this
    {
      i in chain || bumpIndex <= i < slotCount
    }

    /** A new page: with `bump`, nothing is touched; otherwise the chain is laid
        down at once, and visits slot 0, 1, ... in order. */
    constructor (base: nat, slotSize: nat, slotCount: nat, bump: bool)
      requires base > 0 && slotSize > 0
      ensures Valid() && freeCount == slotCount && forall i :: 0 <= i < slotCount ==> IsFree(i)
      ensures this.base == base && this.slotSize == slotSize && this.slotCount == slotCount
      ensures if bump then chain == [] && bumpIndex == 0 else chain == From(0, slotCount)
    {
      this.base, this.slotSize, this.slotCount := base, slotSize, slotCount;
      head, link, chain, bumpIndex, freeCount := NULL, map[], [], 0, slotCount;
      new;
      if !bump {
        InitChain();
        forall i | 0 <= i < slotCount ensures IsFree(i) { assert chain[i] == i; }
      }
    }

    method InitChain()
      requires base > 0 && slotSize > 0 && head == NULL && chain == [] && freeCount == slotCount
      modifies this
      ensures Valid() && chain == From(0, slotCount) && freeCount == slotCount && bumpIndex == slotCount
    {
      var i: nat := slotCount;
      while i > 0
        invariant i <= slotCount && chain == From(i, slotCount) && freeCount == slotCount
        invariant Spells(base, slotSize, link, head, chain)
      {
        i := i - 1;
        var slot := Addr(base, slotSize, i);
        SpellsFrame(base, slotSize, link, head, chain, i, head);
        link := link[slot := head];
        head := slot;
        chain := [i] + chain;
        assert chain[1..] == From(i + 1, slotCount);
      }
      bumpIndex := slotCount;
    }

    /** The test the owner uses instead of the count; they always agree. */
    predicate HasCapacity()
      reads this
    {
      head != NULL || bumpIndex < slotCount
    }

    lemma CapacityIsFreeCount()
      requires Valid()
      ensures HasCapacity() <==> freeCount > 0
    {
      assert base + 0 <= Addr(base, slotSize, if chain == [] then 0 else chain[0]) by {
        MulMono(0, if chain == [] then 0 else chain[0], slotSize);
      }
    }

    /** The count the owner compares to decide that a page is idle. */
    lemma IdleIsAllFree()
      requires Valid()
      ensures freeCount == slotCount <==> forall i :: 0 <= i < slotCount ==> IsFree(i)
    {
      hide Spells;
      AllBelow(chain, bumpIndex);
      if forall i :: 0 <= i < slotCount ==> IsFree(i) {
        forall i: nat | i < bumpIndex ensures i in chain { assert IsFree(i); }
      }
    }

    /** Hands out a free slot, recycled ones first; null if there is none. */
    method Alloc() returns (ptr: nat, ghost i: nat)
      requires Valid()
      modifies this
      ensures Valid() && (ptr == NULL <==> old(freeCount) == 0)
      ensures ptr == NULL ==> chain == old(chain) && bumpIndex == old(bumpIndex)
      ensures ptr != NULL ==> ptr == Addr(base, slotSize, i) && i < slotCount && old(IsFree(i)) && freeCount == old(freeCount) - 1
      ensures ptr != NULL ==> forall j :: IsFree(j) <==> old(IsFree(j)) && j != i
      ensures old(chain) != [] ==> i == old(chain)[0] && chain == old(chain)[1..]
    {
      i := 0;
      if head != NULL {
        i := chain[0];
        HeadOf(chain);
        ptr := head;
        head := link[ptr];
        chain := chain[1..];
        freeCount := freeCount - 1;
        return;
      }
      if bumpIndex < slotCount {
        i := bumpIndex;
        ptr := Addr(base, slotSize, bumpIndex);
        bumpIndex := bumpIndex + 1;
        freeCount := freeCount - 1;
        return;
      }
      ptr := NULL;
    }

    /** Takes back slot `i`, which was handed out and not freed since. */
    method Free(ptr: nat, ghost i: nat)
      requires Valid() && i < slotCount && !IsFree(i) && ptr == Addr(base, slotSize, i)
      modifies this
      ensures Valid() && chain == [i] + old(chain) && freeCount == old(freeCount) + 1
      ensures forall j :: IsFree(j) <==> old(IsFree(j)) || j == i
    {
      SpellsFrame(base, slotSize, link, head, chain, i, head);
      link := link[ptr := head];
      head := ptr;
      chain := [i] + chain;
      freeCount := freeCount + 1;
      assert chain[1..] == old(chain);
    }

    /** A slot just freed is the next one handed out, and the page is then as it
        was before. */
    method FreeThenAlloc(ptr: nat, ghost i: nat) returns (again: nat)
      requires Valid() && i < slotCount && !IsFree(i) && ptr == Addr(base, slotSize, i)
      modifies this
      ensures Valid() && again == ptr && chain == old(chain) && freeCount == old(freeCount)
      ensures forall j :: IsFree(j) <==> old(IsFree(j))
    {
      Free(ptr, i);
      ghost var j;
      again, j := Alloc();
    }
  }

  function Range(n: nat): (r: set<nat>)
    ensures forall i: nat :: i in r <==> i < n
    ensures |r| == n
  {
    if n == 0 then {} else Range(n - 1) + {n - 1}
  }

  /** Distinct numbers below n: n of them are all of them. */
  lemma AllBelow(xs: seq<nat>, n: nat)
    requires NoDup(xs) && (forall x :: x in xs ==> x < n)
    ensures |xs| <= n
    ensures |xs| == n <==> forall i: nat :: i < n ==> i in xs
  {
    ElementCount(xs);
    var b, a := Range(n), Elements(xs);
    assert b == a + (b - a);
    if forall i: nat :: i < n ==> i in xs { assert a == b; }
    if |xs| == n { assert a == b; }
  }

  /** Every pointer a page hands out is one the router accepts, as that slot. */
  lemma HandedOutIsValid(base: nat, e: Entry, i: nat)
    requires e.slotSize > 0 && e.slotSize % MIN_ALIGN == 0 && i < e.slotCount && base + e.slotSize * e.slotCount <= WORD64
    ensures Addr(base, e.slotSize, i) < WORD64
    ensures Classify(base, e, Addr(base, e.slotSize, i), e.generation) == Valid(i)
  {
    MulMono(i + 1, e.slotCount, e.slotSize);
    assert (i + 1) * e.slotSize == i * e.slotSize + e.slotSize;
    ClassifyAlignedIsExact(base, e, Addr(base, e.slotSize, i), e.generation, i);
  }
}
