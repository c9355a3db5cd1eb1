/** What an address inside a page's quantum means. */
module Routing {
  import opened RingIndex

  const QUANTUM: nat := 0x1_0000
  const MIN_ALIGN: nat := 16
  const ANY: nat := 0
  const WORD32: nat := 0x1_0000_0000
  const WORD64: nat := 0x1_0000_0000_0000_0000

  datatype Reason = NoReason | RootAbsent | LeafAbsent | TailSlack | Misaligned | Interior | GenerationStale

  datatype Route = Miss(reason: Reason) | Invalid(reason: Reason) | Valid(slot: nat)

  /** A registered page. */
  datatype Entry = Entry(slotSize: nat, slotCount: nat, generation: nat)

  /** Unsigned 64-bit subtraction. */
  function Offset(addr: nat, base: nat): (d: nat)
  {
    (addr - base) % WORD64
  }

  /** The pipeline after the lookup: bounds, alignment, interior, generation. */
  function Classify(base: nat, e: Entry, addr: nat, expected: nat): Route {
    var offset := Offset(addr, base);
    if offset >= e.slotSize * e.slotCount then Invalid(TailSlack)
    else if offset % MIN_ALIGN != 0 then Invalid(Misaligned)
    else if offset % e.slotSize != 0 then Invalid(Interior)
    else if expected != ANY && expected != e.generation then Invalid(GenerationStale)
    else Valid(offset / e.slotSize)
  }

  predicate Current(e: Entry, expected: nat) {
    expected == ANY || expected == e.generation
  }

  /** Slot `i` starts at `addr`. */
  predicate IsSlot(base: nat, e: Entry, addr: nat, i: nat) {
    i < e.slotCount && addr == base + i * e.slotSize
  }

  lemma MulMono(a: nat, b: nat, k: nat)
    requires a <= b
    ensures a * k <= b * k
  {}

  lemma Cancel(a: nat, b: nat, k: nat)
    requires a * k < b * k
    ensures a < b
  {
    if b <= a { MulMono(b, a, k); }
  }

  lemma DivExact(n: nat, d: nat, q: nat)
    requires d > 0 && n == q * d
    ensures n % d == 0 && n / d == q
  {
    var r := n / d - q;
    assert n == (n / d) * d + n % d;
    assert r * d + n % d == 0 by { assert (n / d) * d - q * d == r * d; }
    Laps(r, d);
    Laps(-r, d);
    assert (-r) * d == -(r * d);
  }

  /** No address wraps: below the page the difference is too large to fall
      inside it. */
  lemma OffsetInside(base: nat, span: nat, addr: nat)
    requires addr < WORD64 && base + span <= WORD64
    ensures Offset(addr, base) < span ==> addr == base + Offset(addr, base)
    ensures addr >= base ==> Offset(addr, base) == addr - base
  {
    if addr >= base {
      assert (addr - base) % WORD64 == addr - base;
    } else {
      assert (addr - base) % WORD64 == addr - base + WORD64;
    }
  }

  lemma SlotOffset(e: Entry, i: nat)
    requires i < e.slotCount && e.slotSize > 0
    ensures i * e.slotSize < e.slotSize * e.slotCount
    ensures i * e.slotSize % e.slotSize == 0 && i * e.slotSize / e.slotSize == i
  {
    MulMono(i + 1, e.slotCount, e.slotSize);
    assert (i + 1) * e.slotSize == i * e.slotSize + e.slotSize;
    DivExact(i * e.slotSize, e.slotSize, i);
  }

  lemma OffsetSlot(e: Entry, offset: nat)
    requires e.slotSize > 0 && offset < e.slotSize * e.slotCount && offset % e.slotSize == 0
    ensures offset == offset / e.slotSize * e.slotSize && offset / e.slotSize < e.slotCount
  {
    Cancel(offset / e.slotSize, e.slotCount, e.slotSize);
  }

  lemma AlignedSlots(slotSize: nat, i: nat)
    requires slotSize % MIN_ALIGN == 0
    ensures i * slotSize % MIN_ALIGN == 0
  {
    var q := slotSize / MIN_ALIGN;
    assert slotSize == q * MIN_ALIGN;
    assert i * slotSize == i * q * MIN_ALIGN;
    DivExact(i * slotSize, MIN_ALIGN, i * q);
  }

  /** Exact and fail-closed: an address is VALID as slot `i` if and only if it is
      the start of slot `i`, the start is aligned, and the generation is the
      expected one. */
  lemma ClassifyIsExact(base: nat, e: Entry, addr: nat, expected: nat, i: nat)
    requires addr < WORD64 && base + e.slotSize * e.slotCount <= WORD64 && e.slotSize > 0
    ensures Classify(base, e, addr, expected) == Valid(i) <==>
            IsSlot(base, e, addr, i) && i * e.slotSize % MIN_ALIGN == 0 && Current(e, expected)
  {
    var offset := Offset(addr, base);
    OffsetInside(base, e.slotSize * e.slotCount, addr);
    hide Offset;
    if Classify(base, e, addr, expected) == Valid(i) {
      OffsetSlot(e, offset);
    }
    if IsSlot(base, e, addr, i) {
      SlotOffset(e, i);
    }
  }

  /** With slot sizes that are multiples of the minimum alignment, VALID with
      slot `i` means exactly: slot `i` starts here, and the generation is right. */
  lemma ClassifyAlignedIsExact(base: nat, e: Entry, addr: nat, expected: nat, i: nat)
    requires addr < WORD64 && base + e.slotSize * e.slotCount <= WORD64 && e.slotSize > 0 && e.slotSize % MIN_ALIGN == 0
    ensures Classify(base, e, addr, expected) == Valid(i) <==> IsSlot(base, e, addr, i) && Current(e, expected)
  {
    ClassifyIsExact(base, e, addr, expected, i);
    AlignedSlots(e.slotSize, i);
  }

  /** `addr` lies in the slots of the page. */
  predicate Inside(base: nat, e: Entry, addr: nat) {
    base <= addr < base + e.slotSize * e.slotCount
  }

  predicate Aligned(base: nat, addr: nat)
    requires base <= addr
  {
    (addr - base) % MIN_ALIGN == 0
  }

  /** What an answer about an address says of it. Each reason is given exactly
      when it applies and none that comes before it does. */
  ghost predicate Meaning(base: nat, e: Entry, addr: nat, expected: nat, r: Route) {
    match r
    case Valid(i) => Inside(base, e, addr) && Aligned(base, addr) && IsSlot(base, e, addr, i) && Current(e, expected)
    case Invalid(TailSlack) => !Inside(base, e, addr)
    case Invalid(Misaligned) => Inside(base, e, addr) && !Aligned(base, addr)
    case Invalid(Interior) => Inside(base, e, addr) && Aligned(base, addr) && forall i :: !IsSlot(base, e, addr, i)
    case Invalid(GenerationStale) => Inside(base, e, addr) && Aligned(base, addr) && (exists i :: IsSlot(base, e, addr, i)) && !Current(e, expected)
    case _ => false
  }

  /** No other answer would mean the same. */
  lemma MeaningIsUnique(base: nat, e: Entry, addr: nat, expected: nat, r: Route, r': Route)
    requires Meaning(base, e, addr, expected, r) && Meaning(base, e, addr, expected, r')
    ensures r == r'
  {
    if r.Valid? && r'.Valid? && r.slot != r'.slot {
      SlotsAreApart(base, e, if r.slot < r'.slot then r.slot else r'.slot, if r.slot < r'.slot then r'.slot else r.slot);
      InsideHasSlots(base, e, addr);
    }
  }

  lemma InsideHasSlots(base: nat, e: Entry, addr: nat)
    requires Inside(base, e, addr)
    ensures e.slotSize > 0 && e.slotCount > 0
  {
    assert e.slotSize * e.slotCount > 0;
  }

  /** The pipeline's answer means what it says: the difference of the addresses
      does not wrap into the page. */
  lemma ClassifyMeans(base: nat, e: Entry, addr: nat, expected: nat)
    requires (addr < WORD64 && base + e.slotSize * e.slotCount <= WORD64) || base <= addr < base + WORD64
    ensures Meaning(base, e, addr, expected, Classify(base, e, addr, expected))
  {
    var offset := Offset(addr, base);
    if base <= addr < base + WORD64 {
      assert offset == addr - base;
    } else {
      OffsetInside(base, e.slotSize * e.slotCount, addr);
    }
    hide Offset;
    if Inside(base, e, addr) {
      InsideHasSlots(base, e, addr);
      if offset % e.slotSize == 0 {
        OffsetSlot(e, offset);
        assert IsSlot(base, e, addr, offset / e.slotSize);
      }
      forall i | IsSlot(base, e, addr, i) ensures offset % e.slotSize == 0 { SlotOffset(e, i); }
    }
  }

  /** Two slots of a page never start at the same address, and no slot reaches
      into the next. */
  lemma SlotsAreApart(base: nat, e: Entry, i: nat, j: nat)
    requires i < j < e.slotCount
    ensures base + i * e.slotSize + e.slotSize <= base + j * e.slotSize
  {
    MulMono(i + 1, j, e.slotSize);
    assert (i + 1) * e.slotSize == i * e.slotSize + e.slotSize;
  }
}
