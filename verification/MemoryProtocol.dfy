/** Quanta of memory, page descriptors and the page map as all threads share
    them: a step relation in which each critical section or atomic operation of
    any thread is one event, so that any interleaving of creations, destructions
    and purges is a run. */
module MemoryProtocol {
  import opened Basics
  import opened Routing
  import opened PageMap
  import PagePool

  const REGION_COUNT: nat := 256

  type Tid = nat

  /** Quanta are named by their number, address / QUANTUM. Every mapped quantum
      has one owner: the reservoir, a live page, the pool, or a thread that is in
      the middle of moving it. */
  datatype Owner = Reservoir | Live(node: nat) | Pooled | InHand(tid: Tid)

  /** A page over `quantum`, described by a descriptor; only `holder` destroys it. */
  datatype LivePage = LivePage(quantum: nat, entry: Entry, holder: Tid)

  /** `pool` is newest first, and `since` says when each of its quanta was given
      to it; `free` is first to be handed out. `busy` maps the descriptors that
      threads have in hand. */
  datatype State = State(owner: map<nat, Owner>, cursor: nat, end: nat, pool: seq<nat>, since: map<nat, nat>, cap: nat,
                         free: seq<nat>, capacity: nat, busy: map<nat, Tid>,
                         pages: map<nat, LivePage>, records: map<nat, Record>)

  datatype Event =
    // Reservoir and system
    | Refill(tid: Tid, region: nat)
    | HandOut(tid: Tid)
    | Unmap(tid: Tid, q: nat)
    // Descriptors
    | NewSlab(tid: Tid, count: nat)
    | TakeNode(tid: Tid)
    | ReturnNode(tid: Tid, node: nat)
    // Page map
    | Register(tid: Tid, q: nat, node: nat, slotSize: nat, slotCount: nat, tag: nat)
    | Release(tid: Tid, node: nat)
    // Pool
    | Acquire(tid: Tid)
    | Give(tid: Tid, q: nat, now: nat)
    | Purge(tid: Tid, now: nat, limit: nat)
    | SetCap(tid: Tid, cap: nat)

  function Init(cap: nat): State {
    State(map[], 0, 0, [], map[], cap, [], 0, map[], map[], map[])
  }

  predicate Holds(s: State, t: Tid, q: nat) {
    q in s.owner && s.owner[q] == InHand(t)
  }

  predicate HoldsNode(s: State, t: Tid, node: nat) {
    node in s.busy && s.busy[node] == t
  }

  /** The owner tag of a page that is registered with one: its descriptor. */
  function Tag(node: nat): nat { node + 1 }

  /** The next registration of `q` would wrap the 32-bit generation to 0. */
  predicate Exhausted(records: map<nat, Record>, q: nat) {
    At(records, q).entry.generation == WORD32 - 1
  }

  function Region(lo: nat, hi: nat): (r: map<nat, Owner>)
    ensures forall k: nat :: k in r <==> lo <= k < hi
    ensures forall k :: k in r ==> r[k] == Reservoir
    decreases hi - lo
  {
    if lo >= hi then map[] else Region(lo + 1, hi)[lo := Reservoir]
  }

  /** A slab's descriptors, the last one first. */
  function Slab(lo: nat, count: nat): (r: seq<nat>)
    ensures |r| == count && forall i :: 0 <= i < count ==> r[i] == lo + count - 1 - i
  {
    seq(count, i requires 0 <= i < count => lo + count - 1 - i)
  }

  /** The pooled quanta that have been there for at least `limit`. */
  function Idle(s: State, now: nat, limit: nat): set<nat> {
    set q | q in s.pool && q in s.since && PagePool.TooIdle(now, limit, s.since[q])
  }

  /** The quanta that are not in `idle`, in order. */
  function Stay(pool: seq<nat>, idle: set<nat>): (r: seq<nat>)
    ensures forall q :: q in r <==> q in pool && q !in idle
  {
    if pool == [] then []
    else
      assert pool == pool[..|pool| - 1] + [pool[|pool| - 1]];
      Stay(pool[..|pool| - 1], idle) + (if pool[|pool| - 1] in idle then [] else [pool[|pool| - 1]])
  }

  function Taken(owner: map<nat, Owner>, pool: seq<nat>, idle: set<nat>, t: Tid): map<nat, Owner> {
    map q | q in owner :: if q in pool && q in idle then InHand(t) else owner[q]
  }

  predicate Enabled(s: State, e: Event) {
    match e
    case Refill(_, region) => s.cursor == s.end && 0 < region && region + REGION_COUNT <= PAGES
                              && forall k :: region <= k < region + REGION_COUNT ==> k !in s.owner
    case HandOut(_) => s.cursor < s.end
    case Unmap(t, q) => Holds(s, t, q)
    case NewSlab(_, count) => s.free == [] && count > 0
    case TakeNode(_) => s.free != []
    case ReturnNode(t, node) => HoldsNode(s, t, node)
    case Register(t, q, node, slotSize, slotCount, tag) => Holds(s, t, q) && HoldsNode(s, t, node) && 0 < slotSize && 0 < slotCount && slotSize * slotCount <= QUANTUM
                                                           && (tag == 0 || tag == Tag(node))
    case Release(t, node) => node in s.pages && s.pages[node].holder == t
    case Acquire(_) => s.pool != []
    case Give(t, q, _) => Holds(s, t, q) && |s.pool| < s.cap
    case Purge(_, _, _) => true
    case SetCap(_, _) => true
  }

  /** The page map is written; if the new generation is not 0 the descriptor and
      the quantum are a page from here on. */
  function DoRegister(s: State, t: Tid, q: nat, node: nat, slotSize: nat, slotCount: nat, tag: nat): State {
    var g := Bumped(At(s.records, Key(q * QUANTUM)));
    var s' := s.(records := Registered(s.records, q * QUANTUM, slotSize, slotCount, tag, 0));
    if g == 0 then s'
    else s'.(pages := s.pages[node := LivePage(q, Entry(slotSize, slotCount, g), t)], busy := s.busy - {node}, owner := s.owner[q := Live(node)])
  }

  /** The record is removed; quantum and descriptor are in the thread's hands. */
  function DoRelease(s: State, t: Tid, node: nat): State
    requires node in s.pages
  {
    var q := s.pages[node].quantum;
    s.(records := Released(s.records, q * QUANTUM), pages := s.pages - {node}, busy := s.busy[node := t], owner := s.owner[q := InHand(t)])
  }

  function Apply(s: State, e: Event): State
    requires Enabled(s, e)
  {
    match e
    case Refill(_, region) => s.(owner := s.owner + Region(region, region + REGION_COUNT), cursor := region, end := region + REGION_COUNT)
    case HandOut(t) => s.(owner := s.owner[s.cursor := InHand(t)], cursor := s.cursor + 1)
    case Unmap(_, q) => s.(owner := s.owner - {q})
    case NewSlab(_, count) => s.(free := Slab(s.capacity, count), capacity := s.capacity + count)
    case TakeNode(t) => s.(free := s.free[1..], busy := s.busy[s.free[0] := t])
    case ReturnNode(_, node) => s.(free := [node] + s.free, busy := s.busy - {node})
    case Register(t, q, node, slotSize, slotCount, tag) => DoRegister(s, t, q, node, slotSize, slotCount, tag)
    case Release(t, node) => DoRelease(s, t, node)
    case Acquire(t) => s.(pool := s.pool[1..], since := s.since - {s.pool[0]}, owner := s.owner[s.pool[0] := InHand(t)])
    case Give(_, q, now) => s.(pool := [q] + s.pool, since := s.since[q := now], owner := s.owner[q := Pooled])
    case Purge(t, now, limit) =>
      var idle := Idle(s, now, limit);
      s.(pool := Stay(s.pool, idle), since := s.since - idle, owner := Taken(s.owner, s.pool, idle, t))
    case SetCap(_, cap) => s.(cap := cap)
  }

  predicate CanRun(s: State, es: seq<Event>)
    decreases |es|, 0
  {
    es == [] || (CanRun(s, es[..|es| - 1]) && Enabled(Run(s, es[..|es| - 1]), es[|es| - 1]))
  }

  function Run(s: State, es: seq<Event>): State
    requires CanRun(s, es)
    decreases |es|, 1
  {
    if es == [] then s else Apply(Run(s, es[..|es| - 1]), es[|es| - 1])
  }

  lemma RunStep(s: State, es: seq<Event>, e: Event)
    requires CanRun(s, es) && Enabled(Run(s, es), e)
    ensures CanRun(s, es + [e]) && Run(s, es + [e]) == Apply(Run(s, es), e)
  {
    assert (es + [e])[..|es|] == es;
  }

  // What every event keeps.

  /** The pool lists the pooled quanta, each once. */
  ghost predicate PoolOk(pool: seq<nat>, owner: map<nat, Owner>) {
    && NoDup(pool)
    && (forall q :: q in pool ==> q in owner && owner[q] == Pooled)
    && (forall q :: q in owner && owner[q] == Pooled ==> q in pool)
  }

  /** The reservoir is a range; pages and their quanta name each other. */
  ghost predicate OwnersOk(owner: map<nat, Owner>, cursor: nat, end: nat, pages: map<nat, LivePage>) {
    && cursor <= end
    && (forall q :: q in owner ==> 0 < q < PAGES)
    && (forall q :: q in owner && owner[q] == Reservoir <==> cursor <= q < end)
    && (forall n :: n in pages ==> pages[n].quantum in owner && owner[pages[n].quantum] == Live(n))
    && (forall q :: q in owner && owner[q].Live? ==> owner[q].node in pages && pages[owner[q].node].quantum == q)
  }

  /** Every descriptor is free, in some thread's hand, or under one live page. */
  ghost predicate NodesOk(free: seq<nat>, capacity: nat, pages: map<nat, LivePage>, busy: map<nat, Tid>) {
    && NoDup(free)
    && (forall n :: n in free ==> n < capacity && n !in pages && n !in busy)
    && (forall n :: n in pages || n in busy ==> n < capacity)
    && (forall n :: n in pages ==> n !in busy)
    && (forall n: nat :: n < capacity ==> n in free || n in pages || n in busy)
  }

  /** The page map knows every live page, with its entry. What else it lists are
      registrations whose generation wrapped to 0. */
  ghost predicate MapOk(records: map<nat, Record>, pages: map<nat, LivePage>, owner: map<nat, Owner>) {
    && (forall n :: n in pages ==> LiveRecord(At(records, pages[n].quantum), pages[n], n))
    && (forall q :: q in records && Present(records[q]) && records[q].entry.generation != 0 ==> q in owner && owner[q].Live?)
    && (forall q :: q in records ==> records[q].base == q * QUANTUM && records[q].entry.generation < WORD32)
  }

  predicate LiveRecord(r: Record, page: LivePage, node: nat) {
    r.base == page.quantum * QUANTUM && r.entry == page.entry && r.entry.slotSize > 0 && r.entry.generation > 0 && (r.tag == 0 || r.tag == Tag(node))
  }

  ghost predicate Inv(s: State) {
    && PoolOk(s.pool, s.owner) && OwnersOk(s.owner, s.cursor, s.end, s.pages)
    && NodesOk(s.free, s.capacity, s.pages, s.busy) && MapOk(s.records, s.pages, s.owner)
  }

  lemma KeyOfQuantum(q: nat)
    requires q < PAGES
    ensures Key(q * QUANTUM) == q && q * QUANTUM % QUANTUM == 0 && q * QUANTUM / QUANTUM == q
  {
    KeyIsQuantum(q * QUANTUM);
  }

  lemma InitInv(cap: nat)
    ensures Inv(Init(cap))
  {}

  lemma {:induction false} StayDistinct(pool: seq<nat>, idle: set<nat>)
    requires NoDup(pool)
    ensures NoDup(Stay(pool, idle))
  {
    if pool != [] {
      StayDistinct(pool[..|pool| - 1], idle);
    }
  }

  /** The same quanta are in the reservoir and under the same pages, and no
      quantum has been mapped. */
  ghost predicate SameFixed(a: map<nat, Owner>, b: map<nat, Owner>) {
    && (forall q :: q in b ==> q in a)
    && (forall q :: q in a && (a[q].Live? || a[q].Reservoir?) ==> q in b && b[q] == a[q])
    && (forall q :: q in b && (b[q].Live? || b[q].Reservoir?) ==> q in a && b[q] == a[q])
  }

  ghost predicate SamePooled(a: map<nat, Owner>, b: map<nat, Owner>) {
    && (forall q :: q in a && a[q] == Pooled ==> q in b && b[q] == Pooled)
    && (forall q :: q in b && b[q] == Pooled ==> q in a && a[q] == Pooled)
  }

  lemma StepPool(s: State, e: Event)
    requires Inv(s) && Enabled(s, e)
    ensures PoolOk(Apply(s, e).pool, Apply(s, e).owner)
  {
    hide NodesOk, MapOk, Registered, Released, Exhausted, Key, Bumped;
    match e {
      case Acquire(_) => HeadOf(s.pool);
      case Give(_, q, _) => PushedOk(s.pool, s.owner, q);
      case Purge(_, now, limit) => StayDistinct(s.pool, Idle(s, now, limit));
      case _ =>
        assert Apply(s, e).pool == s.pool;
        PooledStay(s, e);
    }
  }

  lemma PooledStay(s: State, e: Event)
    requires OwnersOk(s.owner, s.cursor, s.end, s.pages) && Enabled(s, e) && !e.Acquire? && !e.Give? && !e.Purge?
    ensures SamePooled(s.owner, Apply(s, e).owner)
  {
    hide Registered, Released, Key, Bumped;
  }

  lemma PushedOk(pool: seq<nat>, owner: map<nat, Owner>, q: nat)
    requires PoolOk(pool, owner) && q in owner && owner[q].InHand?
    ensures PoolOk([q] + pool, owner[q := Pooled])
  {
    var all := [q] + pool;
    assert all[0] == q;
    forall k | k in pool ensures k in all {
      var i :| 0 <= i < |pool| && pool[i] == k;
      assert all[i + 1] == k;
    }
  }

  lemma OwnersUnmoved(owner: map<nat, Owner>, owner': map<nat, Owner>, cursor: nat, end: nat, pages: map<nat, LivePage>)
    requires OwnersOk(owner, cursor, end, pages) && SameFixed(owner, owner')
    ensures OwnersOk(owner', cursor, end, pages)
  {}

  lemma StepOwners(s: State, e: Event)
    requires Inv(s) && Enabled(s, e)
    ensures var s' := Apply(s, e); OwnersOk(s'.owner, s'.cursor, s'.end, s'.pages)
  {
    hide MapOk, PoolOk, Registered, Released, Bumped, Key, SameFixed;
    var s' := Apply(s, e);
    match e {
      case Refill(_, region) => RefilledOk(s.owner, s.cursor, s.pages, region);
      case HandOut(t) => HandedOutOk(s.owner, s.cursor, s.end, s.pages, t);
      case Register(t, q, node, _, _, _) => if s'.pages != s.pages { InstalledOk(s.owner, s.cursor, s.end, s.pages, q, node, s'.pages[node]); }
      case Release(t, node) => ReleasedOk(s.owner, s.cursor, s.end, s.pages, t, node);
      case _ =>
        FixedStay(s, e);
        OwnersUnmoved(s.owner, s'.owner, s.cursor, s.end, s.pages);
    }
  }

  lemma FixedStay(s: State, e: Event)
    requires Inv(s) && Enabled(s, e) && !e.Refill? && !e.HandOut? && !e.Register? && !e.Release?
    ensures SameFixed(s.owner, Apply(s, e).owner)
  {
    hide MapOk, OwnersOk, NodesOk, NoDup;
    if e.Acquire? { assert s.pool[0] in s.pool; }
  }

  lemma RefilledOk(owner: map<nat, Owner>, cursor: nat, pages: map<nat, LivePage>, region: nat)
    requires OwnersOk(owner, cursor, cursor, pages) && 0 < region && region + REGION_COUNT <= PAGES
    requires forall k :: region <= k < region + REGION_COUNT ==> k !in owner
    ensures OwnersOk(owner + Region(region, region + REGION_COUNT), region, region + REGION_COUNT, pages)
  {}

  lemma HandedOutOk(owner: map<nat, Owner>, cursor: nat, end: nat, pages: map<nat, LivePage>, t: Tid)
    requires OwnersOk(owner, cursor, end, pages) && cursor < end
    ensures cursor in owner && owner[cursor] == Reservoir && OwnersOk(owner[cursor := InHand(t)], cursor + 1, end, pages)
  {}

  lemma InstalledOk(owner: map<nat, Owner>, cursor: nat, end: nat, pages: map<nat, LivePage>, q: nat, node: nat, page: LivePage)
    requires OwnersOk(owner, cursor, end, pages) && q in owner && owner[q].InHand? && node !in pages && page.quantum == q
    ensures OwnersOk(owner[q := Live(node)], cursor, end, pages[node := page])
  {}

  lemma ReleasedOk(owner: map<nat, Owner>, cursor: nat, end: nat, pages: map<nat, LivePage>, t: Tid, node: nat)
    requires OwnersOk(owner, cursor, end, pages) && node in pages
    ensures OwnersOk(owner[pages[node].quantum := InHand(t)], cursor, end, pages - {node})
  {}

  lemma StepNodes(s: State, e: Event)
    requires Inv(s) && Enabled(s, e)
    ensures var s' := Apply(s, e); NodesOk(s'.free, s'.capacity, s'.pages, s'.busy)
  {
    hide MapOk, PoolOk, OwnersOk, Registered, Released;
    match e {
      case NewSlab(_, count) =>
        forall n: nat | s.capacity <= n < s.capacity + count ensures n in Slab(s.capacity, count) {
          assert Slab(s.capacity, count)[s.capacity + count - 1 - n] == n;
        }
      case TakeNode(_) => HeadOf(s.free);
      case ReturnNode(_, node) => assert [node] + s.free == Apply(s, e).free;
      case _ =>
    }
  }

  lemma MapUnmoved(records: map<nat, Record>, pages: map<nat, LivePage>, owner: map<nat, Owner>, owner': map<nat, Owner>)
    requires MapOk(records, pages, owner)
    requires forall q :: q in owner && owner[q].Live? ==> q in owner' && owner'[q] == owner[q]
    ensures MapOk(records, pages, owner')
  {}

  lemma StepMap(s: State, e: Event)
    requires Inv(s) && Enabled(s, e)
    ensures var s' := Apply(s, e); MapOk(s'.records, s'.pages, s'.owner)
  {
    hide NodesOk, Key, Registered, Released, MapOk;
    var s' := Apply(s, e);
    match e {
      case Register(t, q, node, slotSize, slotCount, tag) => RegisterOk(s, e);
      case Release(t, node) => ReleaseOk(s, t, node);
      case _ => MapUnmoved(s.records, s.pages, s.owner, s'.owner);
    }
  }

  lemma RegisterOk(s: State, e: Event)
    requires Inv(s) && e.Register? && Enabled(s, e)
    ensures var s' := Apply(s, e); MapOk(s'.records, s'.pages, s'.owner)
  {
    hide PoolOk, Key;
    assert e.node !in s.pages;
    KeyOfQuantum(e.q);
  }

  lemma ReleaseOk(s: State, t: Tid, node: nat)
    requires Inv(s) && Enabled(s, Release(t, node))
    ensures var s' := DoRelease(s, t, node); MapOk(s'.records, s'.pages, s'.owner)
  {
    hide PoolOk, NodesOk, Key;
    KeyOfQuantum(s.pages[node].quantum);
  }

  lemma StepInv(s: State, e: Event)
    requires Inv(s) && Enabled(s, e)
    ensures Inv(Apply(s, e))
  {
    hide PoolOk, OwnersOk, NodesOk, MapOk;
    StepPool(s, e);
    StepOwners(s, e);
    StepNodes(s, e);
    StepMap(s, e);
  }

  lemma {:induction false} RunInv(cap: nat, es: seq<Event>)
    requires CanRun(Init(cap), es)
    ensures Inv(Run(Init(cap), es))
    decreases |es|
  {
    hide Inv;
    if es == [] {
      InitInv(cap);
    } else {
      RunInv(cap, es[..|es| - 1]);
      StepInv(Run(Init(cap), es[..|es| - 1]), es[|es| - 1]);
    }
  }

  // What holds in every reachable state.

  ghost predicate InReservoir(s: State, q: nat) {
    s.cursor <= q < s.end
  }

  ghost predicate UnderPage(s: State, q: nat) {
    exists n :: n in s.pages && s.pages[n].quantum == q
  }

  ghost predicate HeldBySomeone(s: State, q: nat) {
    exists t :: Holds(s, t, q)
  }

  /** On every run of any threads a quantum is mapped exactly when it is in the
      reservoir, under a live page, in the pool or in a thread's hand, and then in
      one of these places only. */
  lemma OneOwner(cap: nat, es: seq<Event>, q: nat)
    requires CanRun(Init(cap), es)
    ensures var s := Run(Init(cap), es);
      && (q in s.owner <==> InReservoir(s, q) || UnderPage(s, q) || q in s.pool || HeldBySomeone(s, q))
      && !(InReservoir(s, q) && UnderPage(s, q)) && !(InReservoir(s, q) && q in s.pool) && !(InReservoir(s, q) && HeldBySomeone(s, q))
      && !(UnderPage(s, q) && q in s.pool) && !(UnderPage(s, q) && HeldBySomeone(s, q)) && !(q in s.pool && HeldBySomeone(s, q))
      && (forall m, n :: m in s.pages && n in s.pages && s.pages[m].quantum == s.pages[n].quantum ==> m == n)
  {
    hide NodesOk, MapOk;
    RunInv(cap, es);
    var s := Run(Init(cap), es);
    if q in s.owner && s.owner[q].InHand? {
      assert Holds(s, s.owner[q].tid, q);
    }
    if q in s.owner && s.owner[q].Live? {
      assert s.pages[s.owner[q].node].quantum == q;
    }
  }

  /** Every descriptor ever made is free, in one thread's hand, or under a live
      page, and in one of these only. */
  lemma OneUse(cap: nat, es: seq<Event>, n: nat)
    requires CanRun(Init(cap), es)
    ensures var s := Run(Init(cap), es);
      && (n < s.capacity <==> n in s.free || n in s.busy || n in s.pages)
      && !(n in s.free && n in s.busy) && !(n in s.free && n in s.pages) && !(n in s.busy && n in s.pages) && NoDup(s.free)
  {
    RunInv(cap, es);
  }

  /** The page map answers for `q`. */
  predicate Listed(s: State, q: nat) {
    q in s.records && Present(s.records[q])
  }

  /** The page map answers for a quantum that no page is over. */
  ghost predicate Orphan(s: State, q: nat) {
    Listed(s, q) && !UnderPage(s, q)
  }

  /** A listed quantum is under a live page exactly when its generation did not
      wrap; its owner tag, if it has one, is that page's descriptor. */
  lemma ListedIsLiveIff(cap: nat, es: seq<Event>, q: nat)
    requires CanRun(Init(cap), es) && Listed(Run(Init(cap), es), q)
    ensures var s := Run(Init(cap), es);
      && (UnderPage(s, q) <==> s.records[q].entry.generation != 0)
      && (UnderPage(s, q) && s.records[q].tag != 0 ==>
            exists n :: n in s.pages && s.pages[n].quantum == q && s.records[q].tag == Tag(n) && s.records[q].entry == s.pages[n].entry)
  {
    hide NodesOk, PoolOk;
    RunInv(cap, es);
    var s := Run(Init(cap), es);
    if s.records[q].entry.generation != 0 {
      var n := s.owner[q].node;
      assert n in s.pages && s.pages[n].quantum == q && LiveRecord(s.records[q], s.pages[n], n);
    }
  }

  predicate Registers(e: Event, q: nat) {
    e.Register? && e.q == q
  }

  /** An event leaves `q` an orphan exactly if it registers `q` with the last
      generation used up, or `q` was one before and is not registered now. */
  lemma OrphanedIff(s: State, e: Event, q: nat)
    requires Inv(s) && Enabled(s, e)
    ensures Orphan(Apply(s, e), q) <==> if Registers(e, q) then Exhausted(s.records, q) else Orphan(s, q)
  {
    hide NodesOk, PoolOk, Key;
    var s' := Apply(s, e);
    if e.Register? {
      OrphanedByRegister(s, e, q);
    } else if e.Release? {
      OrphanedByRelease(s, e, q);
    } else {
      assert s'.pages == s.pages && s'.records == s.records;
    }
  }

  lemma OrphanedByRegister(s: State, e: Event, q: nat)
    requires Inv(s) && Enabled(s, e) && e.Register?
    ensures Orphan(Apply(s, e), q) <==> if e.q == q then Exhausted(s.records, q) else Orphan(s, q)
  {
    hide PoolOk, Key;
    var s' := Apply(s, e);
    KeyOfQuantum(e.q);
    assert e.node !in s.pages;
    assert forall n :: n in s.pages ==> s.pages[n].quantum != e.q && n in s'.pages && s'.pages[n] == s.pages[n];
    if s'.pages != s.pages {
      assert e.node in s'.pages && s'.pages[e.node].quantum == e.q;
    }
  }

  lemma OrphanedByRelease(s: State, e: Event, q: nat)
    requires Inv(s) && Enabled(s, e) && e.Release?
    ensures Orphan(Apply(s, e), q) <==> Orphan(s, q)
  {
    hide PoolOk, NodesOk, Key;
    var s' := Apply(s, e);
    var k := s.pages[e.node].quantum;
    KeyOfQuantum(k);
    assert UnderPage(s, k);
    assert forall n :: n in s'.pages ==> n in s.pages && s'.pages[n] == s.pages[n];
    assert forall n :: n in s.pages && n != e.node ==> n in s'.pages;
  }

  /** The last registration of `q` in the run wrapped its generation. */
  predicate LastWrapped(cap: nat, es: seq<Event>, q: nat)
    requires CanRun(Init(cap), es)
    decreases |es|
  {
    es != [] && if Registers(es[|es| - 1], q) then Exhausted(Run(Init(cap), es[..|es| - 1]).records, q) else LastWrapped(cap, es[..|es| - 1], q)
  }

  /** No pooled, unmapped, reserved or handed-over quantum is registered, except
      exactly those whose last registration found the generation used up. */
  lemma {:induction false} OrphanIff(cap: nat, es: seq<Event>, q: nat)
    requires CanRun(Init(cap), es)
    ensures Orphan(Run(Init(cap), es), q) <==> LastWrapped(cap, es, q)
    decreases |es|
  {
    hide Inv, Exhausted;
    if es != [] {
      var before := es[..|es| - 1];
      OrphanIff(cap, before, q);
      RunInv(cap, before);
      OrphanedIff(Run(Init(cap), before), es[|es| - 1], q);
    }
  }

  // What a thread has in its hands.

  /** The quanta and descriptors that thread `t` is in the middle of moving, and
      the pages that it may destroy. */
  datatype Holdings = Holdings(quanta: set<nat>, nodes: set<nat>, pages: map<nat, LivePage>)

  function Held(s: State, t: Tid): Holdings {
    Holdings(set q | q in s.owner && s.owner[q] == InHand(t), set n | n in s.busy && s.busy[n] == t, map n | n in s.pages && s.pages[n].holder == t :: s.pages[n])
  }

  /** No event of another thread touches what `t` holds. */
  lemma OthersLeave(s: State, e: Event, t: Tid)
    requires Inv(s) && Enabled(s, e) && e.tid != t
    ensures Held(Apply(s, e), t) == Held(s, t)
  {
    hide Inv, Enabled, Apply;
    OthersLeaveQuanta(s, e, t);
    OthersLeaveNodes(s, e, t);
    OthersLeavePages(s, e, t);
  }

  lemma OthersLeavePages(s: State, e: Event, t: Tid)
    requires Inv(s) && Enabled(s, e) && e.tid != t
    ensures Held(Apply(s, e), t).pages == Held(s, t).pages
  {
    hide MapOk, PoolOk, OwnersOk, Key, Registered, Released, NoDup;
    var s' := Apply(s, e);
    forall n ensures n in Held(s', t).pages <==> n in Held(s, t).pages {}
  }

  lemma OthersLeaveQuanta(s: State, e: Event, t: Tid)
    requires Inv(s) && Enabled(s, e) && e.tid != t
    ensures Held(Apply(s, e), t).quanta == Held(s, t).quanta
  {
    hide MapOk, NodesOk, Key, Registered, Released, NoDup;
    var s' := Apply(s, e);
    if e.Acquire? { assert s.pool[0] in s.pool; }
    forall q ensures Holds(s', t, q) <==> Holds(s, t, q) {}
    assert forall q :: q in Held(s', t).quanta <==> Holds(s', t, q);
    assert forall q :: q in Held(s, t).quanta <==> Holds(s, t, q);
  }

  lemma OthersLeaveNodes(s: State, e: Event, t: Tid)
    requires Inv(s) && Enabled(s, e) && e.tid != t
    ensures Held(Apply(s, e), t).nodes == Held(s, t).nodes
  {
    hide MapOk, PoolOk, OwnersOk, Key, Registered, Released, NoDup;
    var s' := Apply(s, e);
    if e.TakeNode? { assert s.free[0] in s.free; }
    forall n ensures HoldsNode(s', t, n) <==> HoldsNode(s, t, n) {}
    assert forall n :: n in Held(s', t).nodes <==> HoldsNode(s', t, n);
    assert forall n :: n in Held(s, t).nodes <==> HoldsNode(s, t, n);
  }

  /** What an event does to the hands of the thread that takes it. */
  function HeldAfter(s: State, e: Event, h: Holdings): Holdings
    requires Enabled(s, e)
  {
    match e
    case HandOut(_) => h.(quanta := h.quanta + {s.cursor})
    case Unmap(_, q) => h.(quanta := h.quanta - {q})
    case TakeNode(_) => h.(nodes := h.nodes + {s.free[0]})
    case ReturnNode(_, node) => h.(nodes := h.nodes - {node})
    case Register(t, q, node, slotSize, slotCount, _) =>
      var g := Bumped(At(s.records, Key(q * QUANTUM)));
      if g == 0 then h
      else Holdings(h.quanta - {q}, h.nodes - {node}, h.pages[node := LivePage(q, Entry(slotSize, slotCount, g), t)])
    case Release(_, node) => Holdings(h.quanta + {s.pages[node].quantum}, h.nodes + {node}, h.pages - {node})
    case Acquire(_) => h.(quanta := h.quanta + {s.pool[0]})
    case Give(_, q, _) => h.(quanta := h.quanta - {q})
    case Purge(_, now, limit) => h.(quanta := h.quanta + Idle(s, now, limit))
    case _ => h
  }

  lemma OwnHeld(s: State, e: Event)
    requires Inv(s) && Enabled(s, e)
    ensures Held(Apply(s, e), e.tid) == HeldAfter(s, e, Held(s, e.tid))
  {
    hide Inv, Apply;
    OwnQuanta(s, e);
    OwnNodes(s, e);
    OwnPages(s, e);
  }

  lemma OwnQuanta(s: State, e: Event)
    requires Inv(s) && Enabled(s, e)
    ensures Held(Apply(s, e), e.tid).quanta == HeldAfter(s, e, Held(s, e.tid)).quanta
  {
    hide MapOk, NodesOk, Key, Registered, Released, NoDup, Bumped, HeldAfter, Held;
    var s', t := Apply(s, e), e.tid;
    if e.Acquire? { assert s.pool[0] in s.pool; }
    forall q: nat ensures q in Held(s', t).quanta <==> q in HeldAfter(s, e, Held(s, t)).quanta {
      HeldIs(s', t, q);
      HeldIs(s, t, q);
      AfterIs(s, e, Held(s, t), q);
    }
    assert Held(s', t).quanta == HeldAfter(s, e, Held(s, t)).quanta;
  }

  lemma HeldIs(s: State, t: Tid, q: nat)
    ensures q in Held(s, t).quanta <==> Holds(s, t, q)
  {}

  lemma AfterIs(s: State, e: Event, h: Holdings, q: nat)
    requires Enabled(s, e)
    ensures q in HeldAfter(s, e, h).quanta <==>
            (match e
             case HandOut(_) => q == s.cursor || q in h.quanta
             case Unmap(_, k) => q in h.quanta && q != k
             case Register(_, k, _, _, _, _) => q in h.quanta && (Bumped(At(s.records, Key(k * QUANTUM))) != 0 ==> q != k)
             case Release(_, node) => q == s.pages[node].quantum || q in h.quanta
             case Acquire(_) => q == s.pool[0] || q in h.quanta
             case Give(_, k, _) => q in h.quanta && q != k
             case Purge(_, now, limit) => q in h.quanta || q in Idle(s, now, limit)
             case _ => q in h.quanta)
  {
    hide Bumped, Key;
  }

  lemma OwnNodes(s: State, e: Event)
    requires Inv(s) && Enabled(s, e)
    ensures Held(Apply(s, e), e.tid).nodes == HeldAfter(s, e, Held(s, e.tid)).nodes
  {
    hide MapOk, PoolOk, OwnersOk, Key, Registered, Released, NoDup, Bumped;
    var s', t := Apply(s, e), e.tid;
    forall n ensures HoldsNode(s', t, n) <==> n in HeldAfter(s, e, Held(s, t)).nodes {
      assert n in Held(s, t).nodes <==> HoldsNode(s, t, n);
    }
    assert forall n :: n in Held(s', t).nodes <==> HoldsNode(s', t, n);
  }

  lemma OwnPages(s: State, e: Event)
    requires Inv(s) && Enabled(s, e)
    ensures Held(Apply(s, e), e.tid).pages == HeldAfter(s, e, Held(s, e.tid)).pages
  {
    hide MapOk, PoolOk, OwnersOk, Key, Registered, Released, NoDup, Bumped;
    var s', t := Apply(s, e), e.tid;
    forall n ensures n in Held(s', t).pages <==> n in HeldAfter(s, e, Held(s, t)).pages {}
  }

  /** The events of thread `t`, in order. */
  function Own(es: seq<Event>, t: Tid): seq<Event> {
    if es == [] then [] else Own(es[..|es| - 1], t) + (if es[|es| - 1].tid == t then [es[|es| - 1]] else [])
  }

  lemma OwnStep(es: seq<Event>, e: Event, t: Tid)
    ensures Own(es + [e], t) == Own(es, t) + (if e.tid == t then [e] else [])
  {
    assert (es + [e])[..|es|] == es;
  }

  // Purging.

  function Unmaps(t: Tid, qs: seq<nat>): (r: seq<Event>)
    ensures |r| == |qs| && forall i :: 0 <= i < |qs| ==> r[i] == Unmap(t, qs[i])
  {
    seq(|qs|, i requires 0 <= i < |qs| => Unmap(t, qs[i]))
  }

  /** Giving back quanta one by one unmaps exactly those. */
  lemma {:induction false} UnmapAll(s: State, t: Tid, qs: seq<nat>)
    requires NoDup(qs) && forall q :: q in qs ==> Holds(s, t, q)
    ensures CanRun(s, Unmaps(t, qs)) && Run(s, Unmaps(t, qs)) == s.(owner := s.owner - Elements(qs))
    decreases |qs|
  {
    hide Unmaps, Elements, NoDup;
    if qs == [] {
      UnmapNone(s, t);
    } else {
      var n := |qs| - 1;
      LastIsApart(s, t, qs);
      UnmapAll(s, t, qs[..n]);
      hide CanRun, Run;
      UnmapLast(s, t, qs);
      RunStep(s, Unmaps(t, qs[..n]), Unmap(t, qs[n]));
    }
  }

  lemma UnmapNone(s: State, t: Tid)
    ensures Unmaps(t, []) == [] && s.owner - Elements([]) == s.owner
  {}

  lemma LastIsApart(s: State, t: Tid, qs: seq<nat>)
    requires NoDup(qs) && qs != [] && forall q :: q in qs ==> Holds(s, t, q)
    ensures NoDup(qs[..|qs| - 1]) && forall q :: q in qs[..|qs| - 1] ==> Holds(s, t, q)
  {}

  lemma UnmapLast(s: State, t: Tid, qs: seq<nat>)
    requires NoDup(qs) && qs != [] && forall q :: q in qs ==> Holds(s, t, q)
    ensures var n := |qs| - 1; var mid := s.(owner := s.owner - Elements(qs[..n]));
      && Enabled(mid, Unmap(t, qs[n])) && Apply(mid, Unmap(t, qs[n])) == s.(owner := s.owner - Elements(qs))
      && Unmaps(t, qs) == Unmaps(t, qs[..n]) + [Unmap(t, qs[n])]
  {
    var n := |qs| - 1;
    assert qs[n] in qs && qs[n] !in qs[..n];
    assert qs == qs[..n] + [qs[n]];
    assert s.owner - Elements(qs[..n]) - {qs[n]} == s.owner - Elements(qs);
  }

  /** The pool never holds more than the largest cap that it has had. */
  lemma {:induction false} PoolIsCapped(cap: nat, es: seq<Event>, most: nat)
    requires CanRun(Init(cap), es) && cap <= most && forall e :: e in es && e.SetCap? ==> e.cap <= most
    ensures |Run(Init(cap), es).pool| <= most && Run(Init(cap), es).cap <= most
    decreases |es|
  {
    hide Apply, Enabled;
    if es != [] {
      PoolIsCapped(cap, es[..|es| - 1], most);
      assert es[|es| - 1] in es;
      PoolStep(Run(Init(cap), es[..|es| - 1]), es[|es| - 1]);
    }
  }

  lemma PoolStep(s: State, e: Event)
    requires Enabled(s, e)
    ensures |Apply(s, e).pool| <= |s.pool| || (|Apply(s, e).pool| <= s.cap && Apply(s, e).cap == s.cap)
    ensures Apply(s, e).cap == if e.SetCap? then e.cap else s.cap
  {
    if e.Purge? { StayIsShorter(s.pool, Idle(s, e.now, e.limit)); }
  }

  lemma {:induction false} StayIsShorter(pool: seq<nat>, idle: set<nat>)
    ensures |Stay(pool, idle)| <= |pool|
  {
    if pool != [] { StayIsShorter(pool[..|pool| - 1], idle); }
  }

  /** A tag is never taken for no tag, nor for another descriptor's. */
  lemma TagsAreApart(a: nat, b: nat)
    ensures Tag(a) != 0 && (Tag(a) == Tag(b) <==> a == b)
  {}

  /** Every pooled quantum has the time at which it was given. */
  lemma {:induction false} PooledIsDated(cap: nat, es: seq<Event>)
    requires CanRun(Init(cap), es)
    ensures var s := Run(Init(cap), es); forall q :: q in s.pool ==> q in s.since
    decreases |es|
  {
    hide Inv, Apply, Enabled;
    if es != [] {
      PooledIsDated(cap, es[..|es| - 1]);
      RunInv(cap, es[..|es| - 1]);
      DatedStep(Run(Init(cap), es[..|es| - 1]), es[|es| - 1]);
    }
  }

  lemma DatedStep(s: State, e: Event)
    requires Inv(s) && Enabled(s, e) && forall q :: q in s.pool ==> q in s.since
    ensures forall q :: q in Apply(s, e).pool ==> q in Apply(s, e).since
  {
    hide OwnersOk, NodesOk, MapOk, Key, Registered, Released;
    if e.Acquire? { HeadOf(s.pool); }
  }

  /** A purge and the unmappings that follow it take exactly the idle quanta out
      of the pool and away from the process, and leave the rest as it was. */
  lemma PurgeGivesBack(s: State, t: Tid, now: nat, limit: nat, gone: seq<nat>)
    requires Inv(s) && NoDup(gone) && forall q :: q in gone <==> q in Idle(s, now, limit)
    ensures CanRun(Apply(s, Purge(t, now, limit)), Unmaps(t, gone))
    ensures Run(Apply(s, Purge(t, now, limit)), Unmaps(t, gone)) ==
            s.(pool := Stay(s.pool, Idle(s, now, limit)), since := s.since - Elements(gone), owner := s.owner - Elements(gone))
  {
    hide OwnersOk, NodesOk, MapOk, CanRun, Run, Unmaps, Stay, NoDup, Inv;
    PurgedAreHeld(s, t, now, limit, gone);
    UnmapAll(Apply(s, Purge(t, now, limit)), t, gone);
  }

  lemma PurgedAreHeld(s: State, t: Tid, now: nat, limit: nat, gone: seq<nat>)
    requires Inv(s) && forall q :: q in gone <==> q in Idle(s, now, limit)
    ensures var s' := Apply(s, Purge(t, now, limit));
      (forall q :: q in gone ==> Holds(s', t, q)) && s'.owner - Elements(gone) == s.owner - Elements(gone) && Idle(s, now, limit) == Elements(gone)
  {
    hide OwnersOk, NodesOk, MapOk, NoDup, Stay;
  }
}
