/** Cells of a ring of `cap` cells, for tickets that only grow. */
module RingIndex {
  /** The cell of ticket `t`. */
  function Cell(cap: nat, t: nat): (c: nat)
    requires cap > 0
    ensures c < cap
  {
    t % cap
  }

  lemma SmallCell(cap: nat, t: nat)
    requires t < cap
    ensures Cell(cap, t) == t
  {
    var q := t / cap;
    assert t == q * cap + t % cap;
    Laps(q, cap);
  }

  lemma Laps(q: int, cap: nat)
    ensures q >= 1 ==> q * cap >= cap
    ensures q <= 0 ==> q * cap <= 0
  {}

  lemma CellsApart(cap: nat, a: nat, b: nat)
    requires cap > 0 && a < b < a + cap
    ensures Cell(cap, a) != Cell(cap, b)
  {
    var q := b / cap - a / cap;
    assert b - a == q * cap + (b % cap - a % cap);
    Laps(q, cap);
  }

  lemma LapApart(cap: nat, h: nat)
    requires cap > 0
    ensures forall a, b :: h <= a < h + cap && h <= b < h + cap && a != b ==> Cell(cap, a) != Cell(cap, b)
  {
    forall a, b | h <= a < h + cap && h <= b < h + cap && a != b ensures Cell(cap, a) != Cell(cap, b) {
      CellsApart(cap, if a < b then a else b, if a < b then b else a);
    }
  }

  lemma NextLap(cap: nat, t: nat)
    requires cap > 0
    ensures Cell(cap, t + cap) == Cell(cap, t)
  {
    var q := (t + cap) / cap - t / cap;
    assert cap == q * cap + ((t + cap) % cap - t % cap);
    Laps(q, cap);
    Laps(q - 2, cap);
    assert (q - 2) * cap == q * cap - 2 * cap;
  }

  lemma {:induction false} SameCell(cap: nat, t: nat, laps: nat)
    requires cap > 0
    ensures Cell(cap, t + laps * cap) == Cell(cap, t)
  {
    if laps > 0 {
      SameCell(cap, t, laps - 1);
      NextLap(cap, t + (laps - 1) * cap);
      assert t + laps * cap == t + (laps - 1) * cap + cap;
    }
  }

  function Pow2(k: nat): (n: nat)
    ensures n > 0
  {
    if k == 0 then 1 else 2 * Pow2(k - 1)
  }

  /** The bitwise and of two non-negative numbers. */
  function And(a: nat, b: nat): nat {
    if a == 0 || b == 0 then 0 else 2 * And(a / 2, b / 2) + (if a % 2 == 1 && b % 2 == 1 then 1 else 0)
  }

  /** Masking a ticket with capacity - 1 is the remainder, as long as the
      capacity is a power of two. */
  lemma {:induction false} MaskIsCell(t: nat, k: nat)
    ensures And(t, Pow2(k) - 1) == Cell(Pow2(k), t)
  {
    if k > 0 {
      MaskIsCell(t / 2, k - 1);
      var c := Pow2(k - 1);
      assert Pow2(k) - 1 == 2 * (c - 1) + 1;
      HalfCell(c, t);
    }
  }

  lemma HalfCell(c: nat, t: nat)
    requires c > 0
    ensures Cell(2 * c, t) == 2 * Cell(c, t / 2) + t % 2
  {
    var q := t / 2 / c;
    assert t == 2 * (q * c + t / 2 % c) + t % 2;
    var r := 2 * (t / 2 % c) + t % 2;
    assert t == q * (2 * c) + r;
    var d := t / (2 * c) - q;
    assert r - t % (2 * c) == d * (2 * c);
    Laps(d, 2 * c);
    Laps(-d, 2 * c);
    assert -d * (2 * c) == -(d * (2 * c));
  }

  /** A sum of whole laps of `b`, cut to a multiple of `b`, keeps its cell. */
  lemma CellOfCell(a: nat, b: nat, x: nat)
    requires a > 0 && b > 0
    ensures a * b > 0 && Cell(b, x % (a * b)) == Cell(b, x)
  {
    var q := x / (a * b);
    assert a * b > 0;
    assert x == x % (a * b) + q * (a * b);
    assert q * (a * b) == (q * a) * b;
    SameCell(b, x % (a * b), q * a);
  }
}
