/** Aligned memory from the system: reserve one quantum too many, give back what
    sticks out at both ends; and large blocks built on that. */
module Regions {
  import opened Basics
  import opened Routing
  import opened PageMap

  const SIZE_MAX: nat := WORD64 - 1
  const UINT32_MAX: nat := WORD32 - 1

  /** Clearing the low bits of x + (quantum - 1). */
  function AlignUp(x: nat): nat {
    (x + QUANTUM - 1) / QUANTUM * QUANTUM
  }

  lemma AlignUpBounds(x: nat)
    ensures x <= AlignUp(x) < x + QUANTUM && AlignUp(x) % QUANTUM == 0
    ensures x % QUANTUM == 0 ==> AlignUp(x) == x
  {}

  datatype Trim = Trim(head: nat, base: nat, tail: nat)

  /** The cut of a reservation of `size` bytes plus one quantum at `raw`. */
  function Cut(raw: nat, size: nat): Trim {
    var base := AlignUp(raw);
    var head := base - raw;
    Trim(head, base, size + QUANTUM - head - size)
  }

  /** Head, payload and tail are the whole reservation, nothing overflows, and
      the payload is aligned. */
  lemma CutIsExact(raw: nat, size: nat)
    requires raw + size + QUANTUM <= WORD64
    ensures var t := Cut(raw, size);
      && t.head + size + t.tail == size + QUANTUM
      && t.head < QUANTUM && 0 < t.tail <= QUANTUM
      && t.base == raw + t.head && t.base % QUANTUM == 0
      && raw + QUANTUM - 1 < WORD64 && t.base + size + t.tail == raw + size + QUANTUM
  {
    AlignUpBounds(raw);
  }

  // The bytes the process has mapped.

  ghost function Bytes(lo: nat, n: nat): (r: set<nat>)
    ensures forall b: nat :: b in r <==> lo <= b < lo + n
    decreases n
  {
    if n == 0 then {} else Bytes(lo, n - 1) + {lo + n - 1}
  }

  /** After the trims exactly the payload is left of the reservation. */
  lemma TrimLeavesPayload(mapped: set<nat>, raw: nat, size: nat)
    requires raw + size + QUANTUM <= WORD64 && mapped !! Bytes(raw, size + QUANTUM)
    ensures var t := Cut(raw, size);
      mapped + Bytes(raw, size + QUANTUM) - Bytes(raw, t.head) - Bytes(t.base + size, t.tail) == mapped + Bytes(t.base, size)
  {
    CutIsExact(raw, size);
  }

  // Quanta handed out of a region.

  /** The `i`-th quantum of the region at `base`. */
  function Handout(base: nat, i: nat): nat {
    base + i * QUANTUM
  }

  /** Sequential handouts are aligned, inside the region, and disjoint. */
  lemma HandoutsAreDisjoint(base: nat, count: nat, i: nat, j: nat)
    requires base % QUANTUM == 0 && i < j < count
    ensures Handout(base, i) % QUANTUM == 0
    ensures base <= Handout(base, i) && Handout(base, i) + QUANTUM <= Handout(base, j)
    ensures Handout(base, j) + QUANTUM <= base + count * QUANTUM
  {
    MulMono(i + 1, j, QUANTUM);
    MulMono(j + 1, count, QUANTUM);
  }

  // Large blocks.

  const LARGE: nat := 1

  /** The size that is reserved, or 0 if the block cannot be represented. */
  function Rounded(size: nat): nat {
    if size == 0 || size > SIZE_MAX - QUANTUM then 0
    else
      var r := (size + QUANTUM - 1) / QUANTUM * QUANTUM;
      if r > UINT32_MAX then 0 else r
  }

  lemma RoundedBounds(size: nat)
    ensures Rounded(size) != 0 ==> size <= Rounded(size) < size + QUANTUM && Rounded(size) % QUANTUM == 0 && Rounded(size) <= UINT32_MAX
    ensures Rounded(size) == 0 <==> size == 0 || size > UINT32_MAX + 1 - QUANTUM
    ensures size + QUANTUM - 1 <= SIZE_MAX || Rounded(size) == 0
  {}

  class LargeBlocks {
    const pagemap: Map
    ghost var mapped: set<nat>

    constructor ()
      ensures mapped == {} && fresh(pagemap) && pagemap.records == map[] && pagemap.Valid()
    {
      pagemap := new Map();
      mapped := {};
    }

    /** `raw` is the address the system reserves at, if it does. */
    method Alloc(size: nat, raw: Option<nat>, memory: bool) returns (base: nat)
      requires pagemap.Valid()
      requires raw.Some? ==> 0 < raw.value && raw.value + Rounded(size) + QUANTUM <= WORD64 && mapped !! Bytes(raw.value, Rounded(size) + QUANTUM)
      modifies `mapped, pagemap
      ensures pagemap.Valid()
      ensures base == 0 ==> mapped == old(mapped)
      ensures base == 0 ==>
                pagemap.records == old(pagemap.records)
                || (Rounded(size) != 0 && raw.Some? && Bumped(At(old(pagemap.records), Key(Cut(raw.value, Rounded(size)).base))) == 0
                    && pagemap.records == Registered(old(pagemap.records), Cut(raw.value, Rounded(size)).base, Rounded(size), 1, 0, LARGE))
      ensures base != 0 ==> Rounded(size) != 0 && base % QUANTUM == 0 && mapped == old(mapped) + Bytes(base, Rounded(size)) && old(mapped) !! Bytes(base, Rounded(size))
      ensures base != 0 ==> pagemap.records == Registered(old(pagemap.records), base, Rounded(size), 1, 0, LARGE)
      ensures base != 0 ==> pagemap.Route(base, ANY) == Valid(0) && pagemap.RouteLocalFast(base) == None
      ensures base == 0 <==> Rounded(size) == 0 || raw.None? || !Accepts(old(pagemap.leaves), old(pagemap.records), Cut(raw.value, Rounded(size)).base, memory)
    {
      var rounded := Rounded(size);
      if rounded == 0 {
        return 0;
      }
      if raw.None? {
        return 0;
      }
      CutIsExact(raw.value, rounded);
      TrimLeavesPayload(mapped, raw.value, rounded);
      var t := Cut(raw.value, rounded);
      mapped := mapped + Bytes(raw.value, rounded + QUANTUM);
      mapped := mapped - Bytes(raw.value, t.head);
      mapped := mapped - Bytes(t.base + rounded, t.tail);
      var generation := pagemap.Register(t.base, rounded, 1, 0, LARGE, memory);
      if generation == 0 {
        mapped := mapped - Bytes(t.base, rounded);
        assert mapped == old(mapped);
        return 0;
      }
      base := t.base;
      BaseRoutes(pagemap, base);
    }

    method Free(base: nat, rounded: nat)
      requires pagemap.Valid()
      modifies `mapped, pagemap
      ensures pagemap.Valid()
      ensures base == 0 ==> mapped == old(mapped) && pagemap.records == old(pagemap.records)
      ensures base != 0 ==> mapped == old(mapped) - Bytes(base, rounded)
      ensures base != 0 ==> pagemap.records == Released(old(pagemap.records), base)
    {
      if base == 0 {
        return;
      }
      var released := pagemap.Release(base);
      mapped := mapped - Bytes(base, rounded);
    }

    /** Freeing with the size the page map recorded unmaps exactly what the
        allocation kept, and the block's address stops routing. */
    method AllocThenFree(size: nat, raw: Option<nat>, memory: bool) returns (base: nat)
      requires pagemap.Valid()
      requires raw.Some? ==> 0 < raw.value && raw.value + Rounded(size) + QUANTUM <= WORD64 && mapped !! Bytes(raw.value, Rounded(size) + QUANTUM)
      modifies `mapped, pagemap
      ensures pagemap.Valid() && mapped == old(mapped)
      ensures base != 0 ==> pagemap.Route(base, ANY).Miss?
    {
      base := Alloc(size, raw, memory);
      if base != 0 {
        var rounded := pagemap.SlotSizeAt(base);
        Free(base, rounded);
        assert mapped == old(mapped);
        pagemap.RouteIsOfRecord(base, ANY);
      }
    }
  }

  /** The page map can take the block: its leaf is there or can be had, and its
      generation does not wrap. */
  predicate Accepts(leaves: Leaves, records: map<nat, Record>, base: nat, memory: bool) {
    (RootIndex(PageIndex(base)) in leaves || memory) && Bumped(At(records, Key(base))) != 0
  }

  lemma BaseRoutes(m: Map, base: nat)
    requires m.Valid() && base > 0 && RootIndex(PageIndex(base)) in m.leaves
    requires var r := At(m.records, Key(base)); r.base == base && r.flags != 0 && Present(r) && r.entry.slotCount == 1
    ensures m.Route(base, ANY) == Valid(0) && m.RouteLocalFast(base) == None
  {
    hide Key, RootIndex, PageIndex, LeafIndex, SameTable;
    m.CellIsRecord(base);
    assert Offset(base, base) == 0;
  }
}
