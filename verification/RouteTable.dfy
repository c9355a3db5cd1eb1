/** The open-addressing table of the route bench: linear probing from a hash of
    the quantum number, no deletion. It refines a map from base to entry. */
module RouteTable {
  import opened Basics
  import opened RingIndex
  import opened Routing

  const FIB_MULTIPLIER: nat := 11400714819323198485

  /** An empty cell has base 0. */
  datatype Cell = Cell(base: nat, entry: Entry)

  function HashPos(cap: nat, base: nat): (p: nat)
    requires cap > 0
    ensures p < cap
  {
    (base / QUANTUM * FIB_MULTIPLIER) % cap
  }

  /** The 64-bit product, masked with capacity - 1, is the remainder. */
  lemma HashIsMasked(base: nat, k: nat)
    requires k <= 64
    ensures And(base / QUANTUM * FIB_MULTIPLIER % Pow2(64), Pow2(k) - 1) == HashPos(Pow2(k), base)
  {
    MaskedWord(base / QUANTUM * FIB_MULTIPLIER, k);
  }

  lemma MaskedWord(x: nat, k: nat)
    requires k <= 64
    ensures And(x % Pow2(64), Pow2(k) - 1) == x % Pow2(k)
  {
    Pow2Split(64 - k, k);
    CellOfCell(Pow2(64 - k), Pow2(k), x);
    MaskIsCell(x % Pow2(64), k);
  }

  lemma {:induction false} Pow2Split(a: nat, b: nat)
    ensures Pow2(a + b) == Pow2(a) * Pow2(b)
  {
    if a > 0 { Pow2Split(a - 1, b); }
  }

  /** The `i`-th cell of the probe sequence of `base`. */
  function Probe(cap: nat, base: nat, i: nat): (c: nat)
    requires cap > 0
    ensures c < cap
  {
    RingIndex.Cell(cap, HashPos(cap, base) + i)
  }

  /** The first `i` cells of the probe sequence hold other bases. */
  ghost predicate Passes(t: seq<Cell>, base: nat, i: nat)
    requires |t| > 0
  {
    i <= |t| && forall j :: 0 <= j < i ==> t[Probe(|t|, base, j)].base != 0 && t[Probe(|t|, base, j)].base != base
  }

  /** Cell `c` is where the probe sequence of its base arrives, and no cell on
      the way is empty. */
  ghost predicate Reached(t: seq<Cell>, c: nat)
    requires |t| > 0 && c < |t|
  {
    exists i :: 0 <= i < |t| && Probe(|t|, t[c].base, i) == c && Passes(t, t[c].base, i)
  }

  ghost predicate Gapless(t: seq<Cell>) {
    |t| > 0 && forall c :: 0 <= c < |t| && t[c].base != 0 ==> Reached(t, c)
  }

  ghost predicate Holds(t: seq<Cell>, base: nat) {
    exists c :: 0 <= c < |t| && t[c].base == base
  }

  /** The table and the map agree on every key. */
  ghost predicate Agrees(t: seq<Cell>, m: map<nat, Entry>) {
    && 0 !in m
    && (forall c :: 0 <= c < |t| && t[c].base != 0 ==> t[c].base in m && m[t[c].base] == t[c].entry)
    && (forall b :: b in m ==> Holds(t, b))
  }

  /** A base is in at most one cell, and a probe that passes `i` cells has not
      missed it. */
  lemma FoundOnce(t: seq<Cell>, base: nat, i: nat, c: nat)
    requires Gapless(t) && base != 0 && Passes(t, base, i) && c < |t| && t[c].base == base
    ensures i < |t| && t[Probe(|t|, base, i)].base != 0
    ensures t[Probe(|t|, base, i)].base == base ==> Probe(|t|, base, i) == c
  {
    var k :| 0 <= k < |t| && Probe(|t|, base, k) == c && Passes(t, base, k);
    assert t[Probe(|t|, base, k)].base == base;
    assert k >= i;
  }

  /** Every cell lies on every probe sequence. */
  lemma ProbeReachesAll(cap: nat, base: nat, c: nat) returns (i: nat)
    requires c < cap
    ensures i < cap && Probe(cap, base, i) == c
  {
    var p := HashPos(cap, base);
    if c >= p {
      i := c - p;
      SmallCell(cap, c);
    } else {
      i := c + cap - p;
      SmallCell(cap, c);
      NextLap(cap, c);
    }
  }

  lemma FullAfterAllProbes(t: seq<Cell>, base: nat)
    requires |t| > 0 && Passes(t, base, |t|)
    ensures forall c :: 0 <= c < |t| ==> t[c].base != 0 && t[c].base != base
  {
    forall c | 0 <= c < |t| ensures t[c].base != 0 && t[c].base != base {
      var i := ProbeReachesAll(|t|, base, c);
    }
  }

  lemma Overwrite(t: seq<Cell>, m: map<nat, Entry>, c: nat, e: Entry)
    requires Gapless(t) && Agrees(t, m) && c < |t| && t[c].base != 0
    ensures Gapless(t[c := Cell(t[c].base, e)]) && Agrees(t[c := Cell(t[c].base, e)], m[t[c].base := e])
  {
    var t' := t[c := Cell(t[c].base, e)];
    hide Probe;
    forall d | 0 <= d < |t'| && t'[d].base != 0 ensures Reached(t', d) && t'[d].base in m && (d != c ==> t'[d].base != t[c].base) {
      assert Reached(t, d);
      var i :| 0 <= i < |t| && Probe(|t|, t[d].base, i) == d && Passes(t, t[d].base, i);
      assert Passes(t', t'[d].base, i);
      if t[d].base == t[c].base { Unique(t, c, d); }
    }
    forall b | b in m[t[c].base := e] ensures Holds(t', b) {
      if b == t[c].base {
        assert t'[c].base == b;
      } else {
        assert b in m;
        var d :| 0 <= d < |t| && t[d].base == b;
        assert t'[d].base == b;
      }
    }
  }

  lemma Unique(t: seq<Cell>, c: nat, d: nat)
    requires Gapless(t) && c < |t| && d < |t| && t[c].base == t[d].base != 0
    ensures c == d
  {
    assert Reached(t, c);
    var i :| 0 <= i < |t| && Probe(|t|, t[c].base, i) == c && Passes(t, t[c].base, i);
    FoundOnce(t, t[c].base, i, d);
  }

  lemma Insert(t: seq<Cell>, m: map<nat, Entry>, base: nat, i: nat, e: Entry)
    requires Gapless(t) && Agrees(t, m) && base != 0 && i < |t| && Passes(t, base, i) && t[Probe(|t|, base, i)].base == 0
    ensures base !in m
    ensures var t' := t[Probe(|t|, base, i) := Cell(base, e)]; Gapless(t') && Agrees(t', m[base := e])
  {
    hide Probe;
    var c := Probe(|t|, base, i);
    var t' := t[c := Cell(base, e)];
    if base in m {
      var d :| 0 <= d < |t| && t[d].base == base;
      FoundOnce(t, base, i, d);
    }
    assert Passes(t', base, i);
    forall d | 0 <= d < |t'| && t'[d].base != 0 ensures Reached(t', d) {
      if d == c {
        assert Probe(|t'|, t'[d].base, i) == d;
      } else {
        assert Reached(t, d);
        var j :| 0 <= j < |t| && Probe(|t|, t[d].base, j) == d && Passes(t, t[d].base, j);
        assert Passes(t', t'[d].base, j);
      }
    }
    forall b | b in m[base := e] ensures Holds(t', b) {
      if b == base {
        assert t'[c].base == b;
      } else {
        var d :| 0 <= d < |t| && t[d].base == b;
        assert t'[d].base == b;
      }
    }
  }

  class Table {
    const cells: array<Cell>
    ghost var content: map<nat, Entry>

    constructor (cap: nat)
      requires cap > 0
      ensures Valid() && content == map[] && fresh(cells) && cells.Length == cap
    {
      cells := new Cell[cap](i => Cell(0, Entry(0, 0, 0)));
      content := map[];
    }

    ghost predicate Valid()
      reads this, cells
    {
      Gapless(cells[..]) && Agrees(cells[..], content)
    }

    /** Registers `base`, or registers it again under the next generation. The
        result 0 means failure, unless the 32-bit generation has wrapped. */
    method Register(base: nat, slotSize: nat, slotCount: nat) returns (generation: nat)
      requires Valid() && base != 0
      modifies this, cells
      ensures Valid()
      ensures base in old(content) ==>
                generation == (old(content)[base].generation + 1) % WORD32 && content == old(content)[base := Entry(slotSize, slotCount, generation)]
      ensures base !in old(content) && (exists c :: 0 <= c < cells.Length && old(cells[c].base) == 0) ==>
                generation == 1 && content == old(content)[base := Entry(slotSize, slotCount, 1)]
      ensures base !in old(content) && (forall c :: 0 <= c < cells.Length ==> old(cells[c].base) != 0) ==>
                generation == 0 && content == old(content)
    {
      ghost var t := cells[..];
      var pos := HashPos(cells.Length, base);
      for i := 0 to cells.Length
        invariant cells[..] == t && content == old(content) && Passes(t, base, i)
      {
        var c := RingIndex.Cell(cells.Length, pos + i);
        assert c == Probe(|t|, base, i);
        if cells[c].base == base {
          generation := (cells[c].entry.generation + 1) % WORD32;
          Overwrite(t, content, c, Entry(slotSize, slotCount, generation));
          cells[c] := Cell(base, Entry(slotSize, slotCount, generation));
          content := content[base := Entry(slotSize, slotCount, generation)];
          assert cells[..] == t[c := Cell(base, Entry(slotSize, slotCount, generation))];
          return;
        }
        if cells[c].base == 0 {
          Insert(t, content, base, i, Entry(slotSize, slotCount, 1));
          cells[c] := Cell(base, Entry(slotSize, slotCount, 1));
          content := content[base := Entry(slotSize, slotCount, 1)];
          assert cells[..] == t[c := Cell(base, Entry(slotSize, slotCount, 1))];
          return 1;
        }
      }
      FullAfterAllProbes(t, base);
      generation := 0;
    }

    /** The probe loop of a lookup. */
    method Find(base: nat) returns (r: Option<Entry>)
      requires Valid()
      ensures r == if base in content then Some(content[base]) else None
    {
      hide HashPos;
      ghost var t := cells[..];
      var pos := HashPos(cells.Length, base);
      for i := 0 to cells.Length
        invariant Passes(t, base, i)
      {
        var c := RingIndex.Cell(cells.Length, pos + i);
        assert c == Probe(|t|, base, i);
        if cells[c].base == 0 {
          if base in content { Misses(t, base, i); }
          return None;
        }
        if cells[c].base == base {
          return Some(cells[c].entry);
        }
      }
      FullAfterAllProbes(t, base);
      r := None;
    }

    /** Routes an address: MISS exactly if its quantum is not registered, and
        otherwise what the registered page makes of the address. */
    method Lookup(addr: nat, expected: nat) returns (r: Route)
      requires Valid()
      ensures r.Miss? <==> addr / QUANTUM * QUANTUM !in content
      ensures r.Miss? ==> r == Miss(LeafAbsent)
      ensures !r.Miss? ==> Meaning(addr / QUANTUM * QUANTUM, content[addr / QUANTUM * QUANTUM], addr, expected, r)
    {
      hide Classify, Meaning;
      var base := addr / QUANTUM * QUANTUM;
      InItsQuantum(addr);
      var e := Find(base);
      if e.None? {
        return Miss(LeafAbsent);
      }
      ClassifyMeans(base, e.value, addr, expected);
      MeaningIsNoMiss(base, e.value, addr, expected, Classify(base, e.value, addr, expected));
      r := Classify(base, e.value, addr, expected);
    }
  }

  lemma InItsQuantum(addr: nat)
    ensures addr / QUANTUM * QUANTUM <= addr < addr / QUANTUM * QUANTUM + QUANTUM
  {}

  lemma MeaningIsNoMiss(base: nat, e: Entry, addr: nat, expected: nat, r: Route)
    requires Meaning(base, e, addr, expected, r)
    ensures !r.Miss?
  {}

  lemma Misses(t: seq<Cell>, base: nat, i: nat)
    requires Gapless(t) && base != 0 && Passes(t, base, i) && i < |t| && t[Probe(|t|, base, i)].base == 0
    ensures !Holds(t, base)
  {}
}
