/** The page map: a two-level radix with one record for each quantum, registered
    and released by the page layers and consulted for every pointer. A release
    keeps the record's generation, so that pointers from before it stay
    rejected. */
module PageMap {
  import opened Basics
  import opened RingIndex
  import opened Routing

  const LEAF_SIZE: nat := 0x10_0000
  const ROOT_SIZE: nat := 0x800
  const PAGES: nat := LEAF_SIZE * ROOT_SIZE
  const NO_RECORD: Record := Record(0, Entry(0, 0, 0), 0, 0)

  /** slotSize 0 means absent; `tag` is the opaque owner, 0 for none. */
  datatype Record = Record(base: nat, entry: Entry, tag: nat, flags: nat)

  /** What the fast route tells its caller. */
  datatype Local = Local(tag: nat, slotSize: nat, generation: nat)

  // The quantum of an address, as 32-bit arithmetic finds it.

  function PageIndex(addr: nat): nat { addr / QUANTUM % WORD32 }

  function RootIndex(page: nat): nat { page / LEAF_SIZE % ROOT_SIZE }

  function LeafIndex(page: nat): nat { page % LEAF_SIZE }

  /** Root and leaf index together. */
  function Key(addr: nat): nat { RootIndex(PageIndex(addr)) * LEAF_SIZE + LeafIndex(PageIndex(addr)) }

  /** The radix sees 31 bits of the quantum's number: below 2^47 it is the
      number, from there on it starts again. */
  lemma KeyIsQuantum(addr: nat)
    ensures Key(addr) == addr / QUANTUM % PAGES && Key(addr) < PAGES
    ensures Key(addr) / LEAF_SIZE == RootIndex(PageIndex(addr)) && Key(addr) % LEAF_SIZE == LeafIndex(PageIndex(addr))
    ensures addr / QUANTUM < PAGES ==> Key(addr) == addr / QUANTUM
  {
    SplitsLow(addr / QUANTUM);
    SplitKey(Key(addr), RootIndex(PageIndex(addr)), LeafIndex(PageIndex(addr)));
  }

  lemma SplitsLow(page: nat)
    ensures page % WORD32 / LEAF_SIZE % ROOT_SIZE * LEAF_SIZE + page % WORD32 % LEAF_SIZE == page % PAGES
  {
    var low := page % WORD32;
    var high := low / LEAF_SIZE;
    var laps := high / ROOT_SIZE;
    assert low == laps * PAGES + (high % ROOT_SIZE * LEAF_SIZE + low % LEAF_SIZE);
    TwoLaps(page, page / WORD32, laps, high % ROOT_SIZE * LEAF_SIZE + low % LEAF_SIZE);
  }

  lemma TwoLaps(page: nat, a: nat, b: nat, rest: nat)
    requires page == a * WORD32 + (b * PAGES + rest) && rest < PAGES
    ensures rest == page % PAGES
  {}

  function At(records: map<nat, Record>, key: nat): Record {
    if key in records then records[key] else NO_RECORD
  }

  /** What registering does to the generation. */
  function Bumped(r: Record): nat {
    if r.base == 0 && r.entry.generation == 0 then 1 else (r.entry.generation + 1) % WORD32
  }

  /** Registration arguments the map accepts. */
  predicate Registrable(base: nat, slotSize: nat, slotCount: nat) {
    base > 0 && slotSize > 0 && slotCount > 0 && base % QUANTUM == 0 && (slotCount > 1 ==> slotSize * slotCount <= QUANTUM)
  }

  /** Everything registered lies below 2^47 and spans less than 2^32 bytes. */
  ghost predicate UserSpace(records: map<nat, Record>) {
    forall k :: k in records ==> k < PAGES && records[k].base == k * QUANTUM && records[k].entry.slotSize * records[k].entry.slotCount < WORD32
  }

  predicate Present(r: Record) {
    r.entry.slotSize != 0
  }

  datatype Change = Registration(slotSize: nat, slotCount: nat, tag: nat, flags: nat) | Removal

  /** What a change leaves of the record of `base`. A removal keeps the base and
      the generation. */
  function Changed(r: Record, base: nat, c: Change): Record {
    match c
    case Registration(slotSize, slotCount, tag, flags) => Record(base, Entry(slotSize, slotCount, Bumped(r)), tag, flags)
    case Removal => r.(entry := r.entry.(slotSize := 0))
  }

  function Registered(records: map<nat, Record>, base: nat, slotSize: nat, slotCount: nat, tag: nat, flags: nat): map<nat, Record> {
    records[Key(base) := Changed(At(records, Key(base)), base, Registration(slotSize, slotCount, tag, flags))]
  }

  lemma RegisteredInUserSpace(records: map<nat, Record>, base: nat, slotSize: nat, slotCount: nat, tag: nat, flags: nat)
    requires UserSpace(records) && Registrable(base, slotSize, slotCount) && slotSize < WORD32 && base / QUANTUM < PAGES
    ensures UserSpace(Registered(records, base, slotSize, slotCount, tag, flags))
  {
    KeyIsQuantum(base);
  }

  predicate Releasable(records: map<nat, Record>, base: nat) {
    base > 0 && base % QUANTUM == 0 && At(records, Key(base)).base == base && Present(At(records, Key(base)))
  }

  function Released(records: map<nat, Record>, base: nat): map<nat, Record> {
    if Releasable(records, base) then records[Key(base) := Changed(At(records, Key(base)), base, Removal)] else records
  }

  lemma ReleasedInUserSpace(records: map<nat, Record>, base: nat)
    requires UserSpace(records)
    ensures UserSpace(Released(records, base))
  {}

  /** What a record says about an address in its quantum: one slot is found by
      its address alone, several by division. */
  function RouteIn(r: Record, addr: nat, expected: nat): Route {
    var e := r.entry;
    if e.slotSize == 0 then Miss(LeafAbsent)
    else
      var offset := Offset(addr, r.base);
      if offset >= e.slotSize * e.slotCount then Invalid(TailSlack)
      else if offset % MIN_ALIGN != 0 then Invalid(Misaligned)
      else if e.slotCount == 1 then
        if offset != 0 then Invalid(Interior)
        else if !Current(e, expected) then Invalid(GenerationStale)
        else Valid(0)
      else if offset % e.slotSize != 0 then Invalid(Interior)
      else if !Current(e, expected) then Invalid(GenerationStale)
      else Valid(offset / e.slotSize)
  }

  type Leaves = map<nat, map<nat, Record>>

  /** Some leaf has a record for the key. */
  predicate Stored(leaves: Leaves, key: nat) {
    key / LEAF_SIZE in leaves && key % LEAF_SIZE in leaves[key / LEAF_SIZE]
  }

  function StoredAt(leaves: Leaves, key: nat): Record
    requires Stored(leaves, key)
  {
    leaves[key / LEAF_SIZE][key % LEAF_SIZE]
  }

  function Put(leaves: Leaves, root: nat, leaf: nat, r: Record): Leaves
    requires root in leaves
  {
    var changed: map<nat, Record> := leaves[root][leaf := r];
    leaves[root := changed]
  }

  /** Read as one table, the leaves hold `records`. */
  ghost predicate SameTable(leaves: Leaves, records: map<nat, Record>) {
    && (forall k: nat :: k in records <==> Stored(leaves, k))
    && (forall k: nat :: k in records ==> StoredAt(leaves, k) == records[k])
  }

  lemma SplitKey(key: nat, root: nat, leaf: nat)
    requires leaf < LEAF_SIZE
    ensures key / LEAF_SIZE == root && key % LEAF_SIZE == leaf <==> key == root * LEAF_SIZE + leaf
  {}

  lemma StoreKeeps(leaves: Leaves, records: map<nat, Record>, root: nat, leaf: nat, r: Record)
    requires SameTable(leaves, records) && root in leaves && leaf < LEAF_SIZE
    ensures SameTable(Put(leaves, root, leaf, r), records[root * LEAF_SIZE + leaf := r])
  {
    var leaves', records' := Put(leaves, root, leaf, r), records[root * LEAF_SIZE + leaf := r];
    forall k: nat
      ensures k in records' <==> Stored(leaves', k)
      ensures k in records' ==> StoredAt(leaves', k) == records'[k]
    {
      SplitKey(k, root, leaf);
      assert k in records <==> Stored(leaves, k);
    }
  }

  lemma NewLeafKeeps(leaves: Leaves, records: map<nat, Record>, root: nat)
    requires SameTable(leaves, records) && root !in leaves
    ensures SameTable(leaves[root := map[]], records)
  {
    forall k: nat
      ensures k in records <==> Stored(leaves[root := map[]], k)
      ensures k in records ==> StoredAt(leaves[root := map[]], k) == records[k]
    {
      assert k in records <==> Stored(leaves, k);
    }
  }

  class Map {
    var leaves: Leaves
    ghost var records: map<nat, Record>

    constructor ()
      ensures Valid() && records == map[]
    {
      leaves, records := map[], map[];
      assert forall k: nat :: !Stored(map[], k);
    }

    ghost predicate Valid()
      reads this
    {
      SameTable(leaves, records)
    }

    /** The cell, all zeros if nothing was ever stored there. */
    function Cell(root: nat, leaf: nat): Record
      requires root in leaves
      reads this
    {
      if leaf in leaves[root] then leaves[root][leaf] else NO_RECORD
    }

    lemma CellIsRecord(addr: nat)
      requires Valid() && RootIndex(PageIndex(addr)) in leaves
      ensures Cell(RootIndex(PageIndex(addr)), LeafIndex(PageIndex(addr))) == At(records, Key(addr))
    {
      KeyIsQuantum(addr);
      assert Key(addr) in records <==> Stored(leaves, Key(addr));
    }

    lemma NoLeafNoRecord(addr: nat)
      requires Valid() && RootIndex(PageIndex(addr)) !in leaves
      ensures Key(addr) !in records
    {
      KeyIsQuantum(addr);
      assert Key(addr) in records <==> Stored(leaves, Key(addr));
    }

    lemma NoLeafNoRecords(root: nat)
      requires Valid() && root !in leaves
      ensures forall k: nat :: k in records ==> k / LEAF_SIZE != root
    {
      forall k: nat | k in records ensures k / LEAF_SIZE != root { assert Stored(leaves, k); }
    }

    method Store(base: nat, r: Record)
      requires Valid() && RootIndex(PageIndex(base)) in leaves
      modifies this
      ensures Valid() && records == old(records)[Key(base) := r] && leaves.Keys == old(leaves).Keys
    {
      hide SameTable;
      var root, leaf := RootIndex(PageIndex(base)), LeafIndex(PageIndex(base));
      StoreKeeps(leaves, records, root, leaf, r);
      leaves := Put(leaves, root, leaf, r);
      records := records[Key(base) := r];
    }

    /** `memory` is whether a missing leaf could be reserved. */
    method EnsureLeaf(root: nat, memory: bool) returns (ok: bool)
      requires Valid()
      modifies this
      ensures Valid() && records == old(records) && (ok <==> root in old(leaves) || memory) && (ok ==> root in leaves)
      ensures leaves.Keys == old(leaves).Keys + (if ok then {root} else {})
    {
      hide SameTable;
      if root in leaves {
        return true;
      }
      if memory {
        NewLeafKeeps(leaves, records, root);
        leaves := leaves[root := map[]];
      }
      ok := memory;
    }

    method Register(base: nat, slotSize: nat, slotCount: nat, tag: nat, flags: nat, memory: bool) returns (generation: nat)
      requires Valid()
      modifies this
      ensures Valid()
      ensures generation != 0 ==> RootIndex(PageIndex(base)) in leaves
      ensures var stored := Registrable(base, slotSize, slotCount) && (RootIndex(PageIndex(base)) in old(leaves) || memory);
        && (stored ==> generation == Bumped(At(old(records), Key(base))) && records == Registered(old(records), base, slotSize, slotCount, tag, flags))
        && (!stored ==> generation == 0 && records == old(records))
        && (stored ==> At(records, Key(base)) == Record(base, Entry(slotSize, slotCount, generation), tag, flags))
      ensures forall k :: k != Key(base) ==> At(records, k) == At(old(records), k)
    {
      hide Key, RootIndex, LeafIndex, PageIndex, SameTable;
      if base == 0 || slotSize == 0 || slotCount == 0 {
        return 0;
      }
      if base % QUANTUM != 0 {
        return 0;
      }
      if slotCount > 1 && slotSize * slotCount > QUANTUM {
        return 0;
      }
      var ok := EnsureLeaf(RootIndex(PageIndex(base)), memory);
      if !ok {
        return 0;
      }
      CellIsRecord(base);
      generation := Bumped(Cell(RootIndex(PageIndex(base)), LeafIndex(PageIndex(base))));
      Store(base, Changed(Cell(RootIndex(PageIndex(base)), LeafIndex(PageIndex(base))), base, Registration(slotSize, slotCount, tag, flags)));
    }

    method Release(base: nat) returns (released: bool)
      requires Valid()
      modifies this
      ensures Valid() && (released <==> Releasable(old(records), base)) && records == Released(old(records), base)
      ensures forall k :: k != Key(base) || !released ==> At(records, k) == At(old(records), k)
      ensures released ==>
                var r, r' := At(old(records), Key(base)), At(records, Key(base));
                !Present(r') && r'.base == r.base && r'.entry.generation == r.entry.generation && r'.tag == r.tag && r'.flags == r.flags
    {
      hide Key, RootIndex, LeafIndex, PageIndex, SameTable;
      released := false;
      if base == 0 || base % QUANTUM != 0 {
        return;
      }
      if RootIndex(PageIndex(base)) !in leaves {
        NoLeafNoRecord(base);
        return;
      }
      CellIsRecord(base);
      var r := Cell(RootIndex(PageIndex(base)), LeafIndex(PageIndex(base)));
      if r.base == base && r.entry.slotSize != 0 {
        Store(base, Changed(r, base, Removal));
        released := true;
      }
    }

    /** The slot size a route reports for a registered page. */
    function SlotSizeAt(addr: nat): (n: nat)
      requires Valid() && Key(addr) in records
      reads this
      ensures n == records[Key(addr)].entry.slotSize
    {
      KeyIsQuantum(addr);
      assert Stored(leaves, Key(addr));
      Cell(RootIndex(PageIndex(addr)), LeafIndex(PageIndex(addr))).entry.slotSize
    }

    function Route(addr: nat, expected: nat): Routing.Route
      reads this
    {
      if addr == 0 || RootIndex(PageIndex(addr)) !in leaves then Miss(RootAbsent)
      else RouteIn(Cell(RootIndex(PageIndex(addr)), LeafIndex(PageIndex(addr))), addr, expected)
    }

    /** The trimmed route of the local free path: no reason, no slot, no
        generation to check, and flagged records are not its business. */
    function RouteLocalFast(addr: nat): Option<Local>
      reads this
    {
      if addr == 0 || RootIndex(PageIndex(addr)) !in leaves then None
      else
        var r := Cell(RootIndex(PageIndex(addr)), LeafIndex(PageIndex(addr)));
        if r.entry.slotSize == 0 || r.flags != 0 then None
        else
          var offset := Offset(addr, r.base);
          if offset >= r.entry.slotSize * r.entry.slotCount || offset % MIN_ALIGN != 0 then None
          else if r.entry.slotCount == 1 && offset != 0 then None
          else if r.entry.slotCount != 1 && offset % r.entry.slotSize != 0 then None
          else Some(Local(r.tag, r.entry.slotSize, r.entry.generation))
    }

    /** The fast route answers exactly for the valid addresses of unflagged
        pages, and with what their record says. */
    lemma FastIsSlow(addr: nat)
      requires Valid()
      ensures RouteLocalFast(addr).Some? <==> Route(addr, ANY).Valid? && At(records, Key(addr)).flags == 0
      ensures RouteLocalFast(addr).Some? ==>
                var r := At(records, Key(addr)); RouteLocalFast(addr) == Some(Local(r.tag, r.entry.slotSize, r.entry.generation))
    {
      hide Key, RootIndex, LeafIndex, PageIndex, SameTable, Offset;
      if RootIndex(PageIndex(addr)) in leaves {
        CellIsRecord(addr);
      }
    }

    /** Exact for every 64-bit address: VALID with slot `i` means that the
        quantum it lies in is registered and slot `i` of it starts there. An
        address that only shares its 31 bits with a registered one is not taken
        for it. */
    lemma RouteIsExact(addr: nat, expected: nat, i: nat)
      requires Valid() && UserSpace(records) && 0 < addr < WORD64
      ensures Route(addr, expected) == Routing.Valid(i) <==>
                addr / QUANTUM in records && Present(records[addr / QUANTUM])
                && Classify(addr / QUANTUM * QUANTUM, records[addr / QUANTUM].entry, addr, expected) == Routing.Valid(i)
    {
      hide Key, RootIndex, PageIndex, LeafIndex, SameTable, Classify, RouteIn;
      KeyIsQuantum(addr);
      RouteIsOfRecord(addr, expected);
      RecordIsExact(records, addr, expected, i);
    }

    /** What every answer means, for every 64-bit address: MISS at the root if the
        address is null or no leaf covers it, MISS at the leaf if no page is
        registered under its 31 bits, and otherwise what the page that is makes
        of the address. */
    lemma RouteMeans(addr: nat, expected: nat)
      requires Valid() && UserSpace(records) && addr < WORD64
      ensures var r, record := Route(addr, expected), At(records, Key(addr));
        && (r == Miss(RootAbsent) <==> addr == 0 || RootIndex(PageIndex(addr)) !in leaves)
        && (r == Miss(LeafAbsent) <==> addr > 0 && RootIndex(PageIndex(addr)) in leaves && !Present(record))
        && (r.Miss? || (Present(record) && Meaning(record.base, record.entry, addr, expected, r)))
    {
      hide Key, RootIndex, PageIndex, LeafIndex, SameTable, Classify, RouteIn, Meaning;
      if addr > 0 && RootIndex(PageIndex(addr)) in leaves {
        CellIsRecord(addr);
        var record := At(records, Key(addr));
        RecordMeans(record, addr, expected);
      }
    }

    lemma RouteIsOfRecord(addr: nat, expected: nat)
      requires Valid() && addr > 0
      ensures Route(addr, expected) == RouteIn(At(records, Key(addr)), addr, expected) || (Route(addr, expected) == Miss(RootAbsent) && Key(addr) !in records)
    {
      hide Key, RootIndex, PageIndex, LeafIndex, SameTable, RouteIn;
      if RootIndex(PageIndex(addr)) !in leaves {
        NoLeafNoRecord(addr);
      } else {
        CellIsRecord(addr);
      }
    }
  }

  lemma RecordIsExact(records: map<nat, Record>, addr: nat, expected: nat, i: nat)
    requires addr < WORD64 && Key(addr) == addr / QUANTUM % PAGES
    requires UserSpace(records)
    ensures RouteIn(At(records, Key(addr)), addr, expected) == Valid(i) <==>
              addr / QUANTUM in records && Present(records[addr / QUANTUM])
              && Classify(addr / QUANTUM * QUANTUM, records[addr / QUANTUM].entry, addr, expected) == Valid(i)
  {
    hide Key, Classify, Offset;
    var k, r := Key(addr), At(records, Key(addr));
    if Present(r) {
      OneSlotOrMany(r, addr, expected);
      if k != addr / QUANTUM {
        AliasIsFarAway(addr, r, expected);
      }
    }
  }

  lemma RecordMeans(r: Record, addr: nat, expected: nat)
    requires addr < WORD64 && (Present(r) ==> r.base + r.entry.slotSize * r.entry.slotCount <= WORD64)
    ensures RouteIn(r, addr, expected) == Miss(LeafAbsent) <==> !Present(r)
    ensures Present(r) ==> !RouteIn(r, addr, expected).Miss? && Meaning(r.base, r.entry, addr, expected, RouteIn(r, addr, expected))
  {
    hide Offset, Meaning;
    if Present(r) {
      OneSlotOrMany(r, addr, expected);
      ClassifyMeans(r.base, r.entry, addr, expected);
    }
  }

  /** The one-slot shortcut and the general path give the same answer. */
  lemma OneSlotOrMany(r: Record, addr: nat, expected: nat)
    requires Present(r)
    ensures RouteIn(r, addr, expected) == Classify(r.base, r.entry, addr, expected)
  {
    OneSlot(Offset(addr, r.base), r.entry.slotSize);
  }

  lemma OneSlot(offset: nat, slotSize: nat)
    requires slotSize > 0
    ensures offset < slotSize * 1 ==> offset % slotSize == offset && offset / slotSize == 0
  {
    if offset < slotSize {
      SmallCell(slotSize, offset);
      DivExact(0, slotSize, 0);
      assert offset == offset / slotSize * slotSize + offset % slotSize;
      Laps(offset / slotSize, slotSize);
    }
  }

  /** An address beyond 2^47 can share its 31 bits with a registered quantum, but
      not its span. */
  lemma AliasIsFarAway(addr: nat, r: Record, expected: nat)
    requires addr < WORD64 && r.base % QUANTUM == 0 && r.base / QUANTUM == addr / QUANTUM % PAGES && addr / QUANTUM >= PAGES
    requires r.entry.slotSize * r.entry.slotCount < WORD32
    ensures !RouteIn(r, addr, expected).Valid?
  {
    assert addr - r.base >= WORD32;
    assert Offset(addr, r.base) == addr - r.base;
  }

  // Pointers kept from an earlier registration.

  function After(r: Record, base: nat, cs: seq<Change>): Record {
    if cs == [] then r else Changed(After(r, base, cs[..|cs| - 1]), base, cs[|cs| - 1])
  }

  function Registrations(cs: seq<Change>): nat {
    if cs == [] then 0 else Registrations(cs[..|cs| - 1]) + (if cs[|cs| - 1].Registration? then 1 else 0)
  }

  /** Each registration moves the generation on by one, whatever its shape, and
      removals leave it. */
  lemma {:induction false} GenerationAfter(r: Record, base: nat, cs: seq<Change>)
    requires base > 0 && r.base > 0 && r.entry.generation < WORD32
    ensures After(r, base, cs).base > 0
    ensures After(r, base, cs).entry.generation == (r.entry.generation + Registrations(cs)) % WORD32
    decreases |cs|
  {
    if cs != [] {
      GenerationAfter(r, base, cs[..|cs| - 1]);
    }
  }

  /** A pointer kept from a registration never validates again, whatever is
      registered and removed in between, until the 32-bit generation has gone all
      the way round; then it validates exactly if the new shape has a slot there. */
  lemma StalePointerIsRejectedUnlessWrapped(r: Record, base: nat, cs: seq<Change>, addr: nat)
    requires base > 0 && r.base > 0 && 0 < r.entry.generation < WORD32
    ensures RouteIn(After(r, base, cs), addr, r.entry.generation).Valid? <==>
              Registrations(cs) % WORD32 == 0 && RouteIn(After(r, base, cs), addr, ANY).Valid?
  {
    hide Offset, After;
    var g, k := r.entry.generation, Registrations(cs);
    GenerationAfter(r, base, cs);
    assert (g + k) % WORD32 == g <==> k % WORD32 == 0;
  }
}
