/** The persistent sweep cursor as a rotation over the retired list (head at
    index 0). A sweep moves from the cursor toward the head; with no cursor it
    starts at the tail. */
module SweepRotation {
  import opened Basics
  import opened ReadyProtocol
  import opened ReadyInvariant

  datatype Cursor = AtTail | At(page: PageId)

  datatype Round = Round(retired: seq<PageId>, cursor: Cursor)

  function IndexOf(xs: seq<PageId>, p: PageId): (i: nat)
    requires p in xs
    ensures i < |xs| && xs[i] == p
  {
    if xs[0] == p then 0 else 1 + IndexOf(xs[1..], p)
  }

  predicate CursorOk(r: Round) {
    r.cursor.At? ==> r.cursor.page in r.retired
  }

  /** How many pages the current round still has to examine. */
  function Left(r: Round): (n: nat)
    requires CursorOk(r)
    ensures n <= |r.retired|
  {
    match r.cursor case AtTail => |r.retired| case At(p) => IndexOf(r.retired, p) + 1
  }

  predicate InRound(r: Round, x: PageId) {
    CursorOk(r) && x in r.retired && IndexOf(r.retired, x) < Left(r)
  }

  /** How many pages a sweep examines before it reaches `x`: in this round, or
      else in the next one. */
  function Ahead(r: Round, x: PageId): nat
    requires CursorOk(r) && x in r.retired
  {
    var i := IndexOf(r.retired, x);
    if i < Left(r) then Left(r) - 1 - i else Left(r) + |r.retired| - 1 - i
  }

  /** The cursor when `k` pages are left in the round. */
  function CursorAt(xs: seq<PageId>, k: nat): Cursor
    requires k <= |xs|
  {
    if k == 0 then AtTail else At(xs[k - 1])
  }

  /** `p` is unlinked; a cursor that pointed at it moves toward the head. */
  function Removed(r: Round, p: PageId): Round
    requires p in r.retired
  {
    Round(Without(r.retired, p), if r.cursor == At(p) then CursorAt(r.retired, IndexOf(r.retired, p)) else r.cursor)
  }

  /** Each of `ps` that is retired when its turn comes is unlinked. */
  function RemovedAll(r: Round, ps: seq<PageId>): (b: Round)
    ensures ps == [] ==> b == r
  {
    if ps == [] then r
    else
      var before, p := RemovedAll(r, ps[..|ps| - 1]), ps[|ps| - 1];
      if p in before.retired then Removed(before, p) else before
  }

  lemma {:induction false} RemovedFurther(r: Round, ps: seq<PageId>, qs: seq<PageId>)
    ensures RemovedAll(r, ps + qs) == RemovedAll(RemovedAll(r, ps), qs)
    decreases |qs|
  {
    if qs == [] {
      assert ps + qs == ps;
    } else {
      assert (ps + qs)[..|ps + qs| - 1] == ps + qs[..|qs| - 1];
      RemovedFurther(r, ps, qs[..|qs| - 1]);
    }
  }

  /** `p` arrives from `active`. */
  function Evicted(r: Round, p: PageId): Round {
    Round([p] + r.retired, r.cursor)
  }

  function Reversed(xs: seq<PageId>): (r: seq<PageId>)
    ensures |r| == |xs|
    ensures forall i :: 0 <= i < |xs| ==> r[i] == xs[|xs| - 1 - i]
  {
    seq(|xs|, i requires 0 <= i < |xs| => xs[|xs| - 1 - i])
  }

  /** What one operation does to a page that stays retired and is not examined:
      in the round, it comes nearer by every page examined; behind the cursor,
      it can fall back only by the pages that were evicted meanwhile. */
  ghost predicate Advances(a: Round, b: Round, examined: nat, evicted: nat, x: PageId) {
    CursorOk(a) && CursorOk(b) && x in a.retired && x in b.retired
    && (if InRound(a, x) then InRound(b, x) && Ahead(b, x) + examined <= Ahead(a, x)
        else Ahead(b, x) + examined <= Ahead(a, x) + evicted)
  }

  lemma AdvancesTrans(a: Round, b: Round, c: Round, m: nat, n: nat, e: nat, f: nat, x: PageId)
    requires Advances(a, b, m, e, x) && Advances(b, c, n, f, x)
    ensures Advances(a, c, m + n, e + f, x)
  {}

  lemma AdvancesLoosely(a: Round, b: Round, m: nat, e: nat, f: nat, x: PageId)
    requires Advances(a, b, m, e, x) && e <= f
    ensures Advances(a, b, m, f, x)
  {}

  lemma IndexUnique(xs: seq<PageId>, i: nat)
    requires NoDup(xs) && i < |xs|
    ensures IndexOf(xs, xs[i]) == i
  {}

  lemma {:induction false} WithoutIsSplice(xs: seq<PageId>, p: PageId)
    requires NoDup(xs) && p in xs
    ensures Without(xs, p) == xs[..IndexOf(xs, p)] + xs[IndexOf(xs, p) + 1..]
  {
    if xs[0] != p {
      WithoutIsSplice(xs[1..], p);
    }
  }

  lemma IndexAfterRemove(xs: seq<PageId>, p: PageId, x: PageId)
    requires NoDup(xs) && p in xs && x in xs && x != p
    ensures NoDup(Without(xs, p)) && x in Without(xs, p) && |Without(xs, p)| == |xs| - 1
    ensures IndexOf(Without(xs, p), x) == if IndexOf(xs, x) < IndexOf(xs, p) then IndexOf(xs, x) else IndexOf(xs, x) - 1
  {
    WithoutIsSplice(xs, p);
    WithoutElements(xs, p);
    var i := IndexOf(xs, x);
    IndexUnique(Without(xs, p), if i < IndexOf(xs, p) then i else i - 1);
  }

  lemma LeftAfterRemove(r: Round, p: PageId)
    requires NoDup(r.retired) && CursorOk(r) && p in r.retired
    ensures CursorOk(Removed(r, p))
    ensures Left(Removed(r, p)) ==
            if r.cursor == At(p) && IndexOf(r.retired, p) == 0 then |r.retired| - 1
            else if IndexOf(r.retired, p) < Left(r) then Left(r) - 1 else Left(r)
  {
    var xs := r.retired;
    WithoutElements(xs, p);
    if r.cursor == At(p) {
      var k := IndexOf(xs, p);
      if k > 0 {
        IndexUnique(xs, k - 1);
        IndexAfterRemove(xs, p, xs[k - 1]);
      }
    } else if r.cursor.At? {
      IndexAfterRemove(xs, p, r.cursor.page);
    }
  }

  /** Removing any page, the one at the cursor included, pushes nobody back. */
  lemma RemoveAdvances(r: Round, p: PageId, x: PageId)
    requires NoDup(r.retired) && CursorOk(r) && p in r.retired && x in r.retired && x != p
    ensures Advances(r, Removed(r, p), 0, 0, x)
  {
    LeftAfterRemove(r, p);
    IndexAfterRemove(r.retired, p, x);
  }

  /** An eviction arrives at the head, the far end of the round. */
  lemma EvictionAdvances(r: Round, p: PageId, x: PageId)
    requires NoDup(r.retired) && CursorOk(r) && p !in r.retired && x in r.retired
    ensures Advances(r, Evicted(r, p), 0, 1, x)
  {
    assert ([p] + r.retired)[1..] == r.retired;
  }

  /** The sweep examines the next page of the round and leaves it. */
  lemma ExamineAdvances(r: Round, x: PageId)
    requires NoDup(r.retired) && CursorOk(r) && Left(r) > 0 && x in r.retired && x != r.retired[Left(r) - 1]
    ensures Advances(r, Round(r.retired, CursorAt(r.retired, Left(r) - 1)), 1, 0, x)
  {
    var k := Left(r);
    IndexUnique(r.retired, k - 1);
    if k > 1 {
      IndexUnique(r.retired, k - 2);
    }
  }

  /** The sweep examines the next page of the round and removes it. */
  lemma ExamineRemoveAdvances(r: Round, x: PageId)
    requires NoDup(r.retired) && CursorOk(r) && Left(r) > 0 && x in r.retired && x != r.retired[Left(r) - 1]
    ensures Advances(r, Round(Without(r.retired, r.retired[Left(r) - 1]), CursorAt(r.retired, Left(r) - 1)), 1, 0, x)
  {
    hide IndexOf, Without;
    var at := Round(r.retired, At(r.retired[Left(r) - 1]));
    IndexUnique(r.retired, Left(r) - 1);
    RemoveAtCursor(at, x);
  }

  lemma RemoveAtCursor(r: Round, x: PageId)
    requires NoDup(r.retired) && CursorOk(r) && r.cursor.At? && x in r.retired && x != r.cursor.page
    ensures Advances(r, Removed(r, r.cursor.page), 1, 0, x)
  {
    hide IndexOf, Without;
    LeftAfterRemove(r, r.cursor.page);
    IndexAfterRemove(r.retired, r.cursor.page, x);
  }

  // Sequences of operations.

  /** No head-of-line blocking. Over any sequence of operations that neither
      examine nor remove `x`, the pages examined number at most the pages that
      were ahead of it, plus one per eviction; and the evictions do not count
      for a page in the current round. */
  lemma {:induction false} ExaminedInTime(rounds: seq<Round>, examined: seq<nat>, evicted: seq<nat>, x: PageId)
    requires |rounds| == |examined| + 1 == |evicted| + 1
    requires CursorOk(rounds[0]) && x in rounds[0].retired
    requires forall i :: 0 <= i < |examined| ==> Advances(rounds[i], rounds[i + 1], examined[i], evicted[i], x)
    ensures Advances(rounds[0], rounds[|examined|], Sum(examined), Sum(evicted), x)
    ensures Sum(examined) <= Ahead(rounds[0], x) + (if InRound(rounds[0], x) then 0 else Sum(evicted))
    decreases |examined|
  {
    if examined != [] {
      var n := |examined| - 1;
      ExaminedInTime(rounds[..n + 1], examined[..n], evicted[..n], x);
      AdvancesTrans(rounds[0], rounds[n], rounds[n + 1], Sum(examined[..n]), examined[n], Sum(evicted[..n]), evicted[n], x);
    }
  }

  /** One sweep that promotes nothing: it examines the next pages of the round,
      at most `budget` of them, from the cursor toward the head, and touches
      nothing nearer the head than the new cursor. */
  ghost predicate Sweep(a: Round, b: Round, budget: nat, examined: seq<PageId>) {
    CursorOk(a)
    && |examined| == (if Left(a) < budget then Left(a) else budget)
    && examined == Reversed(a.retired[..Left(a)])[..|examined|]
    && |b.retired| >= Left(a) - |examined|
    && b.retired[..Left(a) - |examined|] == a.retired[..Left(a) - |examined|]
    && b.cursor == CursorAt(b.retired, Left(a) - |examined|)
  }

  /** `examined` are the next pages of the round, in the order of the sweep. */
  predicate NextInRound(a: Round, examined: seq<PageId>) {
    CursorOk(a) && |examined| <= Left(a) && examined == Reversed(a.retired[..Left(a)])[..|examined|]
  }

  lemma NothingNext(a: Round)
    requires CursorOk(a)
    ensures NextInRound(a, [])
  {}

  function Flat(xs: seq<seq<PageId>>): seq<PageId> {
    if xs == [] then [] else Flat(xs[..|xs| - 1]) + xs[|xs| - 1]
  }

  /** The sweeps since the cursor was last empty have examined `seen`: the last
      pages of `xs`, tail first. The rest of `xs` is untouched. */
  ghost predicate Swept(xs: seq<PageId>, r: Round, seen: seq<PageId>) {
    |seen| <= |xs| <= |r.retired| + |seen|
    && seen == Reversed(xs)[..|seen|]
    && r.retired[..|xs| - |seen|] == xs[..|xs| - |seen|]
    && r.cursor == (if seen == [] then AtTail else CursorAt(xs, |xs| - |seen|))
    && (seen == [] ==> r.retired == xs)
  }

  lemma SweptLeft(xs: seq<PageId>, r: Round, seen: seq<PageId>)
    requires NoDup(r.retired) && Swept(xs, r, seen) && (r.cursor == AtTail ==> seen == [])
    ensures CursorOk(r) && Left(r) == |xs| - |seen|
  {
    var k := |xs| - |seen|;
    if seen != [] {
      assert r.retired[k - 1] == r.retired[..k][k - 1];
      IndexUnique(r.retired, k - 1);
    }
  }

  lemma ReversedFurther(xs: seq<PageId>, k: nat, n: nat)
    requires n <= k <= |xs|
    ensures Reversed(xs)[..|xs| - k] + Reversed(xs[..k])[..n] == Reversed(xs)[..|xs| - k + n]
  {
    assert forall i :: 0 <= i < n ==> Reversed(xs[..k])[i] == Reversed(xs)[|xs| - k + i];
  }

  lemma PrefixOfPrefix(a: seq<PageId>, b: seq<PageId>, k: nat, m: nat)
    requires m <= k <= |a| && k <= |b| && a[..k] == b[..k]
    ensures a[..m] == b[..m] && CursorAt(a, m) == CursorAt(b, m)
  {
    assert a[..m] == a[..k][..m] && b[..m] == b[..k][..m];
    if m > 0 {
      assert a[m - 1] == a[..m][m - 1] && b[m - 1] == b[..m][m - 1];
    }
  }

  lemma SweepExtends(xs: seq<PageId>, a: Round, b: Round, budget: nat, seen: seq<PageId>, examined: seq<PageId>)
    requires budget > 0 && NoDup(a.retired) && Swept(xs, a, seen) && Sweep(a, b, budget, examined)
    requires a.cursor == AtTail ==> seen == []
    requires |xs| > 0
    ensures Swept(xs, b, seen + examined)
    ensures |examined| == if |xs| - |seen| < budget then |xs| - |seen| else budget
  {
    hide Reversed, CursorAt;
    var k, n := |xs| - |seen|, |examined|;
    SweptLeft(xs, a, seen);
    PrefixOfPrefix(a.retired, xs, k, k - n);
    ReversedFurther(xs, k, n);
    PrefixOfPrefix(b.retired, xs, k - n, k - n);
  }

  /** `examined` lists what consecutive sweeps examined, none of which but the
      last finishes the round. */
  ghost predicate Sweeps(rounds: seq<Round>, budget: nat, examined: seq<seq<PageId>>) {
    && budget > 0 && |rounds| == |examined| + 1
    && rounds[0].cursor == AtTail && rounds[0].retired != []
    && (forall r :: r in rounds ==> NoDup(r.retired))
    && (forall i :: 0 <= i < |examined| ==> Sweep(rounds[i], rounds[i + 1], budget, examined[i]))
    && (forall i :: 0 < i < |examined| ==> rounds[i].cursor != AtTail)
  }

  lemma SweepsPrefix(rounds: seq<Round>, budget: nat, examined: seq<seq<PageId>>)
    requires Sweeps(rounds, budget, examined) && examined != []
    ensures Sweeps(rounds[..|examined|], budget, examined[..|examined| - 1])
  {}

  lemma {:induction false} SweepsCoverTheRound(rounds: seq<Round>, budget: nat, examined: seq<seq<PageId>>)
    requires Sweeps(rounds, budget, examined)
    ensures Swept(rounds[0].retired, rounds[|examined|], Flat(examined))
    ensures |Flat(examined)| == if |examined| * budget < |rounds[0].retired| then |examined| * budget else |rounds[0].retired|
    decreases |examined|
  {
    hide Swept, Sweep, Flat;
    var m := |examined|;
    if m == 0 {
      NothingSwept(rounds[0], examined);
    } else {
      var xs, before := rounds[0].retired, examined[..m - 1];
      SweepsPrefix(rounds, budget, examined);
      SweepsCoverTheRound(rounds[..m], budget, before);
      FlatLast(examined);
      SweepExtends(xs, rounds[m - 1], rounds[m], budget, Flat(before), examined[m - 1]);
      assert m * budget == (m - 1) * budget + budget;
    }
  }

  lemma NothingSwept(r: Round, examined: seq<seq<PageId>>)
    requires r.cursor == AtTail && examined == []
    ensures Swept(r.retired, r, Flat(examined)) && |Flat(examined)| == 0
  {}

  lemma FlatLast(xs: seq<seq<PageId>>)
    requires xs != []
    ensures Flat(xs) == Flat(xs[..|xs| - 1]) + xs[|xs| - 1]
    ensures |xs| == 1 ==> Flat(xs[..0]) == []
  {}

  lemma SweptEnds(xs: seq<PageId>, r: Round, seen: seq<PageId>)
    requires Swept(xs, r, seen)
    ensures r.cursor == AtTail <==> seen == [] || |seen| == |xs|
    ensures |seen| == |xs| ==> seen == Reversed(xs)
  {}

  /** From an empty cursor it takes exactly ceil(n / budget) sweeps to come back
      to one, and together they examine each of the n pages once. */
  lemma FullRound(rounds: seq<Round>, budget: nat, examined: seq<seq<PageId>>)
    requires Sweeps(rounds, budget, examined) && examined != []
    ensures rounds[|examined|].cursor == AtTail <==> |examined| * budget >= |rounds[0].retired|
    ensures rounds[|examined|].cursor == AtTail ==>
              Flat(examined) == Reversed(rounds[0].retired) && (|examined| - 1) * budget < |rounds[0].retired|
  {
    hide Swept, Sweep, Flat, Sweeps;
    var m := |examined|;
    var seen := Covered(rounds, budget, examined, m);
    var before := Covered(rounds, budget, examined, m - 1);
    RoundsUp(m, budget, |rounds[0].retired|);
  }

  /** What the first `m` sweeps have examined, and whether they ended the round. */
  lemma Covered(rounds: seq<Round>, budget: nat, examined: seq<seq<PageId>>, m: nat) returns (seen: nat)
    requires Sweeps(rounds, budget, examined) && m <= |examined| && m + 1 >= |examined|
    ensures budget > 0 && |rounds| == |examined| + 1 && rounds[0].retired != []
    ensures seen == if m * budget < |rounds[0].retired| then m * budget else |rounds[0].retired|
    ensures rounds[m].cursor == AtTail <==> seen == 0 || seen == |rounds[0].retired|
    ensures 0 < m < |examined| ==> rounds[m].cursor != AtTail
    ensures m == |examined| && seen == |rounds[0].retired| ==> Flat(examined) == Reversed(rounds[0].retired)
  {
    hide Swept, Sweep, Flat;
    if m < |examined| {
      SweepsPrefix(rounds, budget, examined);
    }
    assert examined[..|examined|] == examined && rounds[..|rounds|] == rounds;
    SweepsCoverTheRound(rounds[..m + 1], budget, examined[..m]);
    SweptEnds(rounds[0].retired, rounds[m], Flat(examined[..m]));
    seen := |Flat(examined[..m])|;
  }

  lemma RoundsUp(m: nat, budget: nat, n: nat)
    requires m > 0 && budget > 0 && n > 0
    ensures m * budget > 0 && (m > 1 ==> (m - 1) * budget > 0) && (m == 1 ==> (m - 1) * budget == 0)
    ensures (m - 1) * budget < m * budget
  {}

  // A sweep under way.

  /** A sweep that began at `start` has examined `examined`; `k` pages of the
      round, all untouched, are still to come. */
  ghost predicate Sweeping(start: Round, xs: seq<PageId>, k: nat, examined: seq<PageId>) {
    && CursorOk(start) && k + |examined| == Left(start) && k <= |xs|
    && xs[..k] == start.retired[..k]
    && examined == Reversed(start.retired[..Left(start)])[..|examined|]
  }

  /** `x` has not fallen back since the sweep began. */
  ghost predicate Followed(start: Round, xs: seq<PageId>, k: nat, examined: seq<PageId>, x: PageId) {
    && k <= |xs| && (x in xs ==> x in start.retired)
    && (x in xs && x !in examined ==> Advances(start, Round(xs, CursorAt(xs, k)), |examined|, 0, x))
  }

  /** The page that the sweep looks at next. */
  lemma SweepsInOrder(start: Round, xs: seq<PageId>, k: nat, examined: seq<PageId>)
    requires Sweeping(start, xs, k, examined) && k > 0
    ensures NextInRound(start, examined + [xs[k - 1]])
  {
    assert xs[..k][k - 1] == start.retired[..k][k - 1];
  }

  lemma SweepBegins(start: Round, x: PageId)
    requires CursorOk(start) && NoDup(start.retired)
    ensures Sweeping(start, start.retired, Left(start), [])
    ensures Followed(start, start.retired, Left(start), [], x)
  {
    if start.retired != [] {
      IndexUnique(start.retired, Left(start) - 1);
    }
  }

  lemma SweepGoesOn(start: Round, xs: seq<PageId>, k: nat, examined: seq<PageId>, xs': seq<PageId>, x: PageId)
    requires Sweeping(start, xs, k, examined) && k > 0 && NoDup(xs) && Followed(start, xs, k, examined, x)
    requires xs' == xs || xs' == Without(xs, xs[k - 1])
    ensures Sweeping(start, xs', k - 1, examined + [xs[k - 1]])
    ensures Followed(start, xs', k - 1, examined + [xs[k - 1]], x)
  {
    IndexUnique(xs, k - 1);
    WithoutIsSplice(xs, xs[k - 1]);
    WithoutElements(xs, xs[k - 1]);
    assert xs[k - 1] == xs[..k][k - 1];
    assert xs'[..k - 1] == xs[..k][..k - 1];
    if x in xs' && x !in examined && x != xs[k - 1] {
      SweepFollows(start, xs, k, |examined|, xs', x);
      assert k > 1 ==> xs'[k - 2] == xs'[..k - 1][k - 2];
    }
  }

  lemma SweepFollows(start: Round, xs: seq<PageId>, k: nat, examined: nat, xs': seq<PageId>, x: PageId)
    requires 0 < k <= |xs| && NoDup(xs) && (xs' == xs || xs' == Without(xs, xs[k - 1])) && x in xs' && x != xs[k - 1]
    requires x in xs ==> Advances(start, Round(xs, CursorAt(xs, k)), examined, 0, x)
    ensures x in xs && Advances(start, Round(xs', CursorAt(xs, k - 1)), examined + 1, 0, x)
  {
    var a := Round(xs, CursorAt(xs, k));
    IndexUnique(xs, k - 1);
    WithoutElements(xs, xs[k - 1]);
    if xs' == xs {
      ExamineAdvances(a, x);
    } else {
      ExamineRemoveAdvances(a, x);
    }
    AdvancesTrans(start, a, Round(xs', CursorAt(xs, k - 1)), examined, 1, 0, 0, x);
  }

  /** The whole sweep, when it promotes nothing. */
  lemma SweepEnds(start: Round, xs: seq<PageId>, k: nat, budget: nat, examined: seq<PageId>, x: PageId)
    requires Sweeping(start, xs, k, examined) && Followed(start, xs, k, examined, x)
    requires |examined| <= budget && (k == 0 || |examined| == budget)
    ensures Sweep(start, Round(xs, CursorAt(xs, k)), budget, examined) && NextInRound(start, examined)
    ensures x in xs ==> x in start.retired
    ensures x in start.retired && x in xs && x !in examined ==> Advances(start, Round(xs, CursorAt(xs, k)), |examined|, 0, x)
  {}
}
