/** Creating, pooling, destroying and purging pages as the program does it: the
    reservoir, the descriptor list, the page map and the pool that all threads
    share, with any steps of other threads before each critical section. */
module PageLifecycle {
  import opened Basics
  import opened Routing
  import opened PageMap
  import opened PagePool
  import opened MemoryProtocol

  const LINK_SIZE: nat := 8

  /** What the system answers to the requests of one creation: the region that
      it maps if it maps one, whether there is memory for a slab of descriptors,
      and whether for a leaf of the page map. */
  datatype System = System(region: Option<nat>, slab: bool, leaf: bool)

  /** Why a creation ended as it did, and at which step of the run that shows. */
  datatype Why = Made | BadShape | NoRegion(at: nat) | NoNode(at: nat) | NoLeaf(at: nat) | Wrapped(at: nat)

  /** Thread `t` has done `mine` meanwhile, and other threads what they liked. */
  predicate Did(past: seq<Event>, trace: seq<Event>, t: Tid, mine: seq<Event>) {
    past <= trace && Own(trace, t) == Own(past, t) + mine
  }

  /** From `head`, the descriptors' links visit `ids` in order. */
  predicate Threads(next: map<nat, Option<nat>>, head: Option<nat>, ids: seq<nat>)
    decreases |ids|
  {
    if ids == [] then head.None? else head == Some(ids[0]) && ids[0] in next && Threads(next, next[ids[0]], ids[1..])
  }

  /** The link of a descriptor that is not in the list does not matter to it. */
  lemma {:induction false} ThreadsFrame(next: map<nat, Option<nat>>, head: Option<nat>, ids: seq<nat>, node: nat, link: Option<nat>)
    requires Threads(next, head, ids) && node !in ids
    ensures Threads(next[node := link], head, ids)
    decreases |ids|
  {
    if ids != [] {
      ThreadsFrame(next, next[ids[0]], ids[1..], node, link);
    }
  }

  /** Linking a descriptor in front. */
  lemma ThreadsPush(next: map<nat, Option<nat>>, head: Option<nat>, ids: seq<nat>, node: nat)
    requires Threads(next, head, ids) && node !in ids
    ensures Threads(next[node := head], Some(node), [node] + ids)
  {
    ThreadsFrame(next, head, ids, node, head);
    assert ([node] + ids)[1..] == ids;
  }

  /** Unlinking the first one and clearing it. */
  lemma ThreadsPop(next: map<nat, Option<nat>>, head: Option<nat>, ids: seq<nat>)
    requires Threads(next, head, ids) && NoDup(ids) && ids != []
    ensures head == Some(ids[0]) && ids[0] in next && Threads(next[ids[0] := None], next[ids[0]], ids[1..])
  {
    HeadOf(ids);
    ThreadsFrame(next, next[ids[0]], ids[1..], ids[0], None);
  }

  class Substrate {
    const pool: Pool
    const pagemap: Map
    const nodesPerSlab: nat
    ghost const firstCap: nat
    var cursor: nat
    var end: nat
    var freeHead: Option<nat>
    var nextOf: map<nat, Option<nat>>
    ghost var freeNodes: seq<nat>
    var capacity: nat
    var pages: map<nat, LivePage>
    var owner: map<nat, Owner>
    var busy: map<nat, Tid>
    ghost var since: map<nat, nat>
    ghost var trace: seq<Event>
    ghost var Repr: set<PoolNode>

    constructor (cap: nat, nodesPerSlab: nat)
      requires nodesPerSlab > 0
      ensures Valid() && Now() == Init(cap) && firstCap == cap && fresh(pool) && fresh(pagemap) && Repr == {}
    {
      this.nodesPerSlab, firstCap := nodesPerSlab, cap;
      pool := new Pool(cap);
      pagemap := new Map();
      cursor, end, freeHead, nextOf, freeNodes, capacity := 0, 0, None, map[], [], 0;
      pages, owner, busy, since, trace, Repr := map[], map[], map[], map[], [], {};
    }

    /** The shared state that the fields and lists amount to. */
    ghost function Now(): State
      reads this, pool, pagemap
    {
      State(owner, cursor, end, Bases(pool.nodes), since, pool.cap, freeNodes, capacity, busy, pages, pagemap.records)
    }

    /** The lists are well linked, and the state is what the threads' steps so
        far have made of the empty one. */
    ghost predicate Valid()
      reads this, pool, pagemap, Repr
    {
      && nodesPerSlab > 0 && pagemap.Valid() && Threads(nextOf, freeHead, freeNodes)
      && (forall n :: n in pool.nodes ==> n in Repr) && pool.Valid() && Dated(pool.nodes, since)
      && CanRun(Init(firstCap), trace) && Run(Init(firstCap), trace) == Now()
    }

    lemma NowInv()
      requires Valid()
      ensures Inv(Now())
    {
      RunInv(firstCap, trace);
    }

    lemma PoolDistinct()
      requires Valid()
      ensures NoDup(pool.nodes) && NoDup(Bases(pool.nodes))
    {
      NowInv();
    }

    /** One step `e` has been taken. */
    ghost predicate Stepped(before: State, past: seq<Event>, e: Event)
      reads this, pool, pagemap, Repr
    {
      Valid() && Enabled(before, e) && Now() == Apply(before, e) && trace == past + [e]
    }

    ghost method Record(before: State, e: Event)
      requires CanRun(Init(firstCap), trace) && Run(Init(firstCap), trace) == before
      requires Enabled(before, e) && Now() == Apply(before, e)
      modifies this`trace
      ensures CanRun(Init(firstCap), trace) && Run(Init(firstCap), trace) == Now() && trace == old(trace) + [e]
    {
      RunStep(Init(firstCap), trace, e);
      trace := trace + [e];
    }

    // Each critical section or atomic operation, as one step.

    method RefillRegion(t: Tid, region: nat)
      requires Valid() && Enabled(Now(), Event.Refill(t, region))
      modifies `cursor, `end, `owner, `trace
      ensures Stepped(old(Now()), old(trace), Event.Refill(t, region))
    {
      hide CanRun, Run, Threads, Dated, Pool.Chained, SameTable, Bases, Region;
      cursor, end := region, region + REGION_COUNT;
      owner := owner + Region(region, region + REGION_COUNT);
      Record(old(Now()), Event.Refill(t, region));
    }

    method BumpCursor(t: Tid) returns (q: nat)
      requires Valid() && cursor < end
      modifies `cursor, `owner, `trace
      ensures Stepped(old(Now()), old(trace), Event.HandOut(t)) && q == old(cursor)
    {
      hide CanRun, Run, Threads, Dated;
      q := cursor;
      cursor := cursor + 1;
      owner := owner[q := InHand(t)];
      Record(old(Now()), Event.HandOut(t));
    }

    method UnmapQuantum(t: Tid, q: nat)
      requires Valid() && Holds(Now(), t, q)
      modifies `owner, `trace
      ensures Stepped(old(Now()), old(trace), Event.Unmap(t, q))
    {
      hide CanRun, Run, Threads, Dated;
      owner := owner - {q};
      Record(old(Now()), Event.Unmap(t, q));
    }

    method RefillSlab(t: Tid)
      requires Valid() && freeHead.None?
      modifies `freeHead, `nextOf, `freeNodes, `capacity, `trace
      ensures Stepped(old(Now()), old(trace), Event.NewSlab(t, nodesPerSlab)) && freeHead.Some?
    {
      hide CanRun, Run, Threads, Dated;
      NoneIsEmpty();
      LinkSlab();
      capacity := capacity + nodesPerSlab;
      Record(old(Now()), Event.NewSlab(t, nodesPerSlab));
    }

    /** Links the descriptors of a new slab, one by one. */
    method LinkSlab()
      requires Threads(nextOf, freeHead, freeNodes) && freeNodes == [] && nodesPerSlab > 0
      modifies `freeHead, `nextOf, `freeNodes
      ensures Threads(nextOf, freeHead, freeNodes) && freeNodes == Slab(capacity, nodesPerSlab) && freeHead.Some?
    {
      hide Threads;
      NewSlabIsEmpty();
      var i := 0;
      while i < nodesPerSlab
        invariant i <= nodesPerSlab && freeNodes == Slab(capacity, i) && Threads(nextOf, freeHead, freeNodes) && (i > 0 ==> freeHead.Some?)
      {
        ThreadsPush(nextOf, freeHead, freeNodes, capacity + i);
        nextOf := nextOf[capacity + i := freeHead];
        freeHead := Some(capacity + i);
        freeNodes := [capacity + i] + freeNodes;
        i := i + 1;
      }
    }

    lemma NoneIsEmpty()
      requires Threads(nextOf, freeHead, freeNodes)
      ensures freeHead.None? <==> freeNodes == []
    {}

    lemma NewSlabIsEmpty()
      requires Threads(nextOf, freeHead, freeNodes) && freeNodes == []
      ensures freeNodes == Slab(capacity, 0) && Threads(nextOf, freeHead, Slab(capacity, 0))
    {
      assert Slab(capacity, 0) == [];
    }

    lemma FreeDistinct()
      requires Valid()
      ensures NoDup(freeNodes) && forall n :: n in busy ==> n !in freeNodes
    {
      NowInv();
    }

    method PopNode(t: Tid) returns (node: nat)
      requires Valid() && freeHead.Some?
      modifies `freeHead, `nextOf, `freeNodes, `busy, `trace
      ensures Stepped(old(Now()), old(trace), Event.TakeNode(t)) && old(freeNodes) != [] && node == old(freeNodes)[0]
    {
      hide CanRun, Run, Threads, Dated, NoDup;
      NoneIsEmpty();
      FreeDistinct();
      ThreadsPop(nextOf, freeHead, freeNodes);
      node := freeHead.value;
      freeHead := nextOf[node];
      nextOf := nextOf[node := None];
      freeNodes := freeNodes[1..];
      busy := busy[node := t];
      Record(old(Now()), Event.TakeNode(t));
    }

    method PushNode(t: Tid, node: nat)
      requires Valid() && HoldsNode(Now(), t, node)
      modifies `freeHead, `nextOf, `freeNodes, `busy, `trace
      ensures Stepped(old(Now()), old(trace), Event.ReturnNode(t, node))
    {
      hide CanRun, Run, Threads, Dated, NoDup;
      FreeDistinct();
      ThreadsPush(nextOf, freeHead, freeNodes, node);
      nextOf := nextOf[node := freeHead];
      freeHead := Some(node);
      freeNodes := [node] + freeNodes;
      busy := busy - {node};
      Record(old(Now()), Event.ReturnNode(t, node));
    }

    /** `memory` is whether a missing leaf of the page map could be had; without
        it nothing happens. */
    method RegisterPage(t: Tid, q: nat, node: nat, slotSize: nat, slotCount: nat, tag: nat, memory: bool) returns (generation: nat, ghost tried: bool)
      requires Valid() && Enabled(Now(), Event.Register(t, q, node, slotSize, slotCount, tag))
      modifies `pages, `busy, `owner, `trace, pagemap
      ensures tried ==> Stepped(old(Now()), old(trace), Event.Register(t, q, node, slotSize, slotCount, tag))
      ensures !tried ==> !memory && NoLeafFor(old(Now()).records, q)
      ensures !tried ==> Valid() && Now() == old(Now()) && trace == old(trace)
      ensures generation != 0 <==> tried && !Exhausted(old(Now()).records, q)
      ensures tried ==> generation == Bumped(At(old(Now()).records, Key(q * QUANTUM)))
      ensures generation != 0 ==> node in pages && pages[node] == LivePage(q, Entry(slotSize, slotCount, generation), t)
    {
      hide CanRun, Run, Threads, Dated, Key, RootIndex, LeafIndex, PageIndex, Registered, Inv, SameTable;
      hide Pool.Valid, Bases, Bumped, Exhausted, Apply, DoRegister, At, Changed, Present, NoLeafFor;
      NowInv();
      RegisterMeans(Now(), t, q, node, slotSize, slotCount, tag);
      QuantumBase(q);
      LeafOrNone(q);
      tried := RootIndex(PageIndex(q * QUANTUM)) in pagemap.leaves || memory;
      generation := pagemap.Register(q * QUANTUM, slotSize, slotCount, tag, 0, memory);
      if generation != 0 {
        pages := pages[node := LivePage(q, Entry(slotSize, slotCount, generation), t)];
        busy := busy - {node};
        owner := owner[q := Live(node)];
      }
      if tried {
        Record(old(Now()), Event.Register(t, q, node, slotSize, slotCount, tag));
      }
    }

    lemma LeafOrNone(q: nat)
      requires Valid()
      ensures RootIndex(PageIndex(q * QUANTUM)) in pagemap.leaves || NoLeafFor(Now().records, q)
    {
      hide RootIndex, PageIndex, SameTable;
      if RootIndex(PageIndex(q * QUANTUM)) !in pagemap.leaves { pagemap.NoLeafNoRecords(RootIndex(PageIndex(q * QUANTUM))); }
    }

    lemma QuantumBase(q: nat)
      requires Inv(Now()) && q in owner
      ensures 0 < q < PAGES && Key(q * QUANTUM) == q && q * QUANTUM % QUANTUM == 0 && q * QUANTUM > 0
      ensures Bumped(At(pagemap.records, q)) == 0 <==> Exhausted(pagemap.records, q)
    {
      KeyOfQuantum(q);
    }

    method ReleasePage(t: Tid, node: nat) returns (q: nat)
      requires Valid() && Enabled(Now(), Event.Release(t, node))
      modifies `pages, `busy, `owner, `trace, pagemap
      ensures Stepped(old(Now()), old(trace), Event.Release(t, node)) && q == old(pages)[node].quantum
    {
      hide CanRun, Run, Threads, Dated, Key, Released, SameTable, Pool.Chained, Bases, Releasable, Apply, DoRelease;
      ReleaseMeans(Now(), t, node);
      q := pages[node].quantum;
      var released := pagemap.Release(q * QUANTUM);
      pages := pages - {node};
      busy := busy[node := t];
      owner := owner[q := InHand(t)];
      Record(old(Now()), Event.Release(t, node));
    }

    /** `stale` is a peek at the pool that came too early. */
    method AcquireBase(t: Tid, stale: bool) returns (q: Option<nat>)
      requires Valid()
      modifies `owner, `since, `trace, pool
      ensures q.None? <==> stale || old(Now()).pool == []
      ensures q.None? ==> Valid() && Now() == old(Now()) && trace == old(trace)
      ensures q.Some? ==> Stepped(old(Now()), old(trace), Event.Acquire(t)) && q.value == old(Now()).pool[0]
    {
      hide CanRun, Run, Threads, Pool.Chained, SameTable, Dated;
      ghost var nodes := pool.nodes;
      PoolDistinct();
      var node := pool.TryAcquire(stale);
      if node == null {
        return None;
      }
      assert Bases(nodes)[0] == node.base && Bases(nodes)[1..] == Bases(pool.nodes);
      DatedRest(nodes, pool.nodes, node, since);
      owner, since := owner[node.base := InHand(t)], since - {node.base};
      Record(old(Now()), Event.Acquire(t));
      q := Some(node.base);
    }

    method OfferBase(t: Tid, q: nat, now: nat) returns (cached: bool)
      requires Valid() && Holds(Now(), t, q)
      modifies `owner, `since, `trace, `Repr, pool
      ensures fresh(Repr - old(Repr)) && old(Repr) <= Repr
      ensures cached <==> |old(Now()).pool| < old(Now()).cap
      ensures cached ==> Stepped(old(Now()), old(trace), Event.Give(t, q, now))
      ensures !cached ==> Valid() && Now() == old(Now()) && trace == old(trace)
    {
      hide CanRun, Run, Threads, Pool.Valid, SameTable, Bases, Dated;
      InHandIsNotPooled(t, q);
      cached := CacheBase(q, now);
      if cached {
        owner, since := owner[q := Pooled], since[q := now];
        Record(old(Now()), Event.Give(t, q, now));
      }
    }

    lemma InHandIsNotPooled(t: Tid, q: nat)
      requires Valid() && Holds(Now(), t, q)
      ensures q !in Bases(pool.nodes)
    {
      NowInv();
    }

    /** The pool's side of it: the quantum is cached exactly below the cap. */
    method CacheBase(q: nat, now: nat) returns (cached: bool)
      requires pool.Valid() && (forall n :: n in pool.nodes ==> n in Repr) && Dated(pool.nodes, since) && q !in Bases(pool.nodes)
      modifies `Repr, pool
      ensures pool.Valid() && (forall n :: n in pool.nodes ==> n in Repr) && fresh(Repr - old(Repr)) && old(Repr) <= Repr
      ensures pool.cap == old(pool.cap) && (cached <==> |old(pool.nodes)| < pool.cap)
      ensures Bases(pool.nodes) == if cached then [q] + Bases(old(pool.nodes)) else Bases(old(pool.nodes))
      ensures Dated(pool.nodes, if cached then since[q := now] else since)
    {
      hide Pool.Chained;
      ghost var bases := Bases(pool.nodes);
      assert forall i :: 0 <= i < |bases| ==> bases[i] == pool.nodes[i].base && bases[i] in bases;
      var node := new PoolNode(q);
      cached := pool.Release(node, now);
      if cached {
        Repr := Repr + {node};
      }
    }

    method ChangeCap(t: Tid, cap: nat) returns (previous: nat)
      requires Valid()
      modifies `trace, pool
      ensures Stepped(old(Now()), old(trace), Event.SetCap(t, cap)) && previous == old(Now()).cap
    {
      hide CanRun, Run, Threads, Dated;
      previous := pool.SetCap(cap);
      Record(old(Now()), Event.SetCap(t, cap));
    }

    /** Unlinks every quantum idle for at least `limit`. `gone` lists them. */
    method UnlinkIdleBases(t: Tid, now: nat, limit: nat) returns (gone: seq<nat>)
      requires Valid()
      modifies `owner, `since, `trace, pool, Repr`next
      ensures Stepped(old(Now()), old(trace), Event.Purge(t, now, limit))
      ensures NoDup(gone) && forall q :: q in gone <==> q in Idle(old(Now()), now, limit)
      ensures forall n :: n in old(pool.nodes) ==> (n.base in gone <==> TooIdle(now, limit, old(n.releasedAt)))
    {
      hide CanRun, Run, Threads, Pool.Valid, SameTable, NoDup, Stay, Bases, Taken, Idle, Dated;
      PoolDistinct();
      ghost var bases, idle := Bases(pool.nodes), Idle(Now(), now, limit);
      AgesMatch(now, limit);
      gone := PurgePool(now, limit, idle);
      TakenByList(owner, bases, idle, gone, t);
      owner, since := map q | q in owner :: if q in gone then InHand(t) else owner[q], since - idle;
      Record(old(Now()), Event.Purge(t, now, limit));
    }

    lemma AgesMatch(now: nat, limit: nat)
      requires Valid()
      ensures forall n :: n in pool.nodes ==> (n.base in Idle(Now(), now, limit) <==> TooIdle(now, limit, n.releasedAt))
      ensures forall q :: q in Idle(Now(), now, limit) ==> q in Bases(pool.nodes)
    {
      hide CanRun, Run, Threads, Pool.Valid, SameTable, TooIdle;
      forall n | n in pool.nodes ensures n.base in Bases(pool.nodes) {
        var i :| 0 <= i < |pool.nodes| && pool.nodes[i] == n;
        assert Bases(pool.nodes)[i] == n.base;
      }
    }

    method PurgePool(now: nat, limit: nat, ghost idle: set<nat>) returns (gone: seq<nat>)
      requires pool.Valid() && (forall n :: n in pool.nodes ==> n in Repr) && NoDup(pool.nodes) && NoDup(Bases(pool.nodes))
      requires forall n :: n in pool.nodes ==> (n.base in idle <==> TooIdle(now, limit, n.releasedAt))
      requires (forall q :: q in idle ==> q in Bases(pool.nodes)) && Dated(pool.nodes, since)
      modifies pool, Repr`next
      ensures pool.Valid() && (forall n :: n in pool.nodes ==> n in Repr) && pool.cap == old(pool.cap) && Dated(pool.nodes, since - idle)
      ensures Bases(pool.nodes) == Stay(Bases(old(pool.nodes)), idle)
      ensures NoDup(gone) && forall q :: q in gone <==> q in idle
    {
      hide Pool.Chained, Kept, Gone, NoDup, Stay, Old, Bases, TooIdle;
      SortByAge(pool.nodes, now, limit, idle);
      ghost var went;
      gone, went := pool.PurgeIdle(now, limit);
    }

    // Other threads.

    method ActOnQuanta(u: Tid) returns (ghost e: Option<Event>)
      requires Valid()
      modifies this, pool, pagemap, Repr
      ensures Valid() && fresh(Repr - old(Repr)) && old(Repr) <= Repr
      ensures e.None? ==> Now() == old(Now()) && trace == old(trace)
      ensures e.Some? ==> e.value.tid == u && Stepped(old(Now()), old(trace), e.value)
    {
      hide CanRun, Run, Threads, Dated, Pool.Valid, SameTable, Enabled, Apply, Stay;
      e := None;
      var kind: nat, q: nat, now: nat := *, *, *;
      if kind == 0 && cursor == end {
        var answer: Option<nat> := *;
        var region := MapRegion(u, answer);
        if region.Some? {
          RefillRegion(u, region.value);
          e := Some(Event.Refill(u, region.value));
        }
      } else if kind == 1 && cursor < end {
        q := BumpCursor(u);
        e := Some(Event.HandOut(u));
      } else if kind == 2 && q in owner && owner[q] == InHand(u) {
        UnmapQuantum(u, q);
        e := Some(Event.Unmap(u, q));
      } else if kind == 3 {
        var taken := AcquireBase(u, false);
        if taken.Some? { e := Some(Event.Acquire(u)); }
      } else if kind == 4 && q in owner && owner[q] == InHand(u) {
        var cached := OfferBase(u, q, now);
        if cached { e := Some(Event.Give(u, q, now)); }
      }
    }

    /** A request for a region. The system may refuse; what it maps is not mapped
        already. */
    method MapRegion(t: Tid, answer: Option<nat>) returns (region: Option<nat>)
      requires Valid() && cursor == end
      ensures region == if answer.Some? && Enabled(Now(), Event.Refill(t, answer.value)) then answer else None
    {
      region := None;
      if answer.Some? {
        var r := answer.value;
        if 0 < r && r + REGION_COUNT <= PAGES && forall k :: r <= k < r + REGION_COUNT ==> k !in owner {
          region := answer;
        }
      }
    }

    method ActOnNodes(u: Tid) returns (ghost e: Option<Event>)
      requires Valid()
      modifies this, pool, pagemap, Repr
      ensures Valid() && fresh(Repr - old(Repr)) && old(Repr) <= Repr
      ensures e.None? ==> Now() == old(Now()) && trace == old(trace)
      ensures e.Some? ==> e.value.tid == u && Stepped(old(Now()), old(trace), e.value)
    {
      hide CanRun, Run, Threads, Dated, Pool.Valid, SameTable, Apply, Stay;
      e := None;
      var kind: nat, q: nat, node: nat, slotSize: nat, slotCount: nat, tagged: bool, memory: bool := *, *, *, *, *, *, *;
      if kind == 0 && freeHead.None? {
        RefillSlab(u);
        e := Some(Event.NewSlab(u, nodesPerSlab));
      } else if kind == 1 && freeHead.Some? {
        node := PopNode(u);
        e := Some(Event.TakeNode(u));
      } else if kind == 2 && node in busy && busy[node] == u {
        PushNode(u, node);
        e := Some(Event.ReturnNode(u, node));
      } else if kind == 3 && node in pages && pages[node].holder == u {
        q := ReleasePage(u, node);
        e := Some(Event.Release(u, node));
      } else if kind == 4 && node in busy && busy[node] == u && q in owner && owner[q] == InHand(u)
                && 0 < slotSize && 0 < slotCount && slotSize * slotCount <= QUANTUM {
        var tag := if tagged then Tag(node) else 0;
        ghost var tried;
        var generation;
        generation, tried := RegisterPage(u, q, node, slotSize, slotCount, tag, memory);
        if tried { e := Some(Event.Register(u, q, node, slotSize, slotCount, tag)); }
      }
    }

    method ActOnPool(u: Tid) returns (ghost e: Option<Event>)
      requires Valid()
      modifies this, pool, pagemap, Repr
      ensures Valid() && fresh(Repr - old(Repr)) && old(Repr) <= Repr
      ensures e.Some? ==> e.value.tid == u && Stepped(old(Now()), old(trace), e.value)
      ensures e.None? ==> Now() == old(Now()) && trace == old(trace)
    {
      hide CanRun, Run, Threads, Dated, Pool.Valid, SameTable, Enabled, Apply, Stay;
      var setsCap: bool, now: nat, limit: nat := *, *, *;
      if setsCap {
        var previous := ChangeCap(u, limit);
        e := Some(Event.SetCap(u, limit));
      } else {
        var gone := UnlinkIdleBases(u, now, limit);
        e := Some(Event.Purge(u, now, limit));
      }
    }

    /** Any number of steps of any threads but `t`: they leave what `t` holds. */
    method Others(t: Tid)
      requires Valid()
      modifies this, pool, pagemap, Repr
      ensures Valid() && fresh(Repr - old(Repr)) && old(Repr) <= Repr
      ensures Did(old(trace), trace, t, []) && Held(Now(), t) == old(Held(Now(), t))
    {
      hide CanRun, Run, Threads, Dated, Pool.Valid, SameTable, Enabled, Apply, Stay, Inv, Held, Own;
      var steps: nat := *;
      while steps > 0
        invariant Valid() && fresh(Repr - old(Repr)) && old(Repr) <= Repr
        invariant Did(old(trace), trace, t, []) && Held(Now(), t) == old(Held(Now(), t))
      {
        NowInv();
        ghost var before, past := Now(), trace;
        var u: Tid, what: nat := *, *;
        if u != t {
          ghost var e;
          if what == 0 {
            e := ActOnQuanta(u);
          } else if what == 1 {
            e := ActOnNodes(u);
          } else {
            e := ActOnPool(u);
          }
          if e.Some? {
            OthersLeave(before, e.value, t);
            OwnStep(past, e.value, t);
          }
        }
        steps := steps - 1;
      }
    }

    // What thread `t` does. Before each of its steps others may have run.

    lemma OwnStepped(before: State, past: seq<Event>, e: Event)
      requires Stepped(before, past, e) && Inv(before)
      ensures Held(Now(), e.tid) == HeldAfter(before, e, Held(before, e.tid)) && Did(past, trace, e.tid, [e])
    {
      hide CanRun, Run, Threads, Dated, Inv, Apply, Enabled;
      OwnHeld(before, e);
      OwnStep(past, e, e.tid);
    }

    lemma CursorInRegion()
      requires Valid()
      ensures cursor <= end
    {
      NowInv();
    }

    /** Refills the reservoir if it is used up. */
    method EnsureRegion(t: Tid, answer: Option<nat>) returns (ok: bool, ghost mine: seq<Event>)
      requires Valid()
      modifies this, pool, pagemap, Repr
      ensures Valid() && Repr == old(Repr) && Did(old(trace), trace, t, mine) && !Tried(mine) && NoAcquire(mine)
      ensures Held(Now(), t) == old(Held(Now(), t)) && (if ok then cursor < end else mine == [] && trace == old(trace) && Refused(Now(), t, answer))
      ensures ok ==> if old(cursor) < old(end) then mine == [] else answer.Some? && mine == [Event.Refill(t, answer.value)]
    {
      hide CanRun, Run, Threads, Dated, Pool.Valid, SameTable, Apply, Stay, Inv, Held, Own;
      CursorInRegion();
      mine := [];
      if cursor == end {
        var region := MapRegion(t, answer);
        if region.None? {
          return false, [];
        }
        NowInv();
        RefillRegion(t, region.value);
        OwnStepped(old(Now()), old(trace), Event.Refill(t, region.value));
        RefilledLeaves(old(Now()), Event.Refill(t, region.value));
        mine := [Event.Refill(t, region.value)];
      }
      ok := true;
    }

    /** A fresh quantum from the reservoir, refilled when it is used up. */
    method Reserve(t: Tid, answer: Option<nat>) returns (q: Option<nat>, ghost at: nat, ghost mine: seq<Event>)
      requires Valid()
      modifies this, pool, pagemap, Repr
      ensures Valid() && fresh(Repr - old(Repr)) && old(Repr) <= Repr && Did(old(trace), trace, t, mine)
      ensures !Tried(mine) && NoAcquire(mine)
      ensures q.None? ==> |old(trace)| <= at && Reached(firstCap, trace, at) && Refused(StateAt(firstCap, trace, at), t, answer)
      ensures q.None? ==> mine == [] && Held(Now(), t) == old(Held(Now(), t))
      ensures q.Some? ==> mine == [Event.HandOut(t)] || (answer.Some? && mine == [Event.Refill(t, answer.value), Event.HandOut(t)])
      ensures q.Some? ==> q.value !in old(Held(Now(), t)).quanta && Held(Now(), t) == Plus(old(Held(Now(), t)), q.value)
    {
      hide CanRun, Run, Threads, Dated, Pool.Valid, SameTable, Apply, Stay, Inv, Held, Own, Refused;
      Others(t);
      var ok;
      ok, mine := EnsureRegion(t, answer);
      at := |trace|;
      if !ok {
        ReachedNow();
        return None, at, [];
      }
      NowInv();
      ghost var before, past := Now(), trace;
      CursorIsFree(before, t);
      var taken := BumpCursor(t);
      OwnStepped(before, past, Event.HandOut(t));
      mine := mine + [Event.HandOut(t)];
      q := Some(taken);
    }

    method EnsureNode(t: Tid, memory: bool) returns (ok: bool, ghost mine: seq<Event>)
      requires Valid()
      modifies this, pool, pagemap, Repr
      ensures Valid() && Repr == old(Repr) && Did(old(trace), trace, t, mine) && !Tried(mine) && NoAcquire(mine)
      ensures Held(Now(), t) == old(Held(Now(), t)) && (if ok then freeHead.Some? else mine == [] && trace == old(trace) && Now().free == [] && !memory)
      ensures ok ==> if old(freeHead).Some? then mine == [] else memory && mine == [Event.NewSlab(t, nodesPerSlab)]
    {
      hide CanRun, Run, Threads, Dated, Pool.Valid, SameTable, Apply, Stay, Inv, Held, Own;
      mine := [];
      if freeHead.None? {
        NoneIsEmpty();
        if !memory {
          return false, [];
        }
        NowInv();
        RefillSlab(t);
        OwnStepped(old(Now()), old(trace), Event.NewSlab(t, nodesPerSlab));
        mine := [Event.NewSlab(t, nodesPerSlab)];
      }
      ok := true;
    }

    /** A descriptor from the free list, refilled with a slab when it is empty. */
    method AllocNode(t: Tid, memory: bool) returns (node: Option<nat>, ghost at: nat, ghost mine: seq<Event>)
      requires Valid()
      modifies this, pool, pagemap, Repr
      ensures Valid() && fresh(Repr - old(Repr)) && old(Repr) <= Repr && Did(old(trace), trace, t, mine)
      ensures !Tried(mine) && NoAcquire(mine)
      ensures node.None? ==> !memory && |old(trace)| <= at && Reached(firstCap, trace, at) && StateAt(firstCap, trace, at).free == []
      ensures node.None? ==> mine == [] && Held(Now(), t) == old(Held(Now(), t))
      ensures node.Some? ==> mine == [Event.TakeNode(t)] || (memory && mine == [Event.NewSlab(t, nodesPerSlab), Event.TakeNode(t)])
      ensures node.Some? ==> node.value !in old(Held(Now(), t)).nodes && Held(Now(), t) == PlusNode(old(Held(Now(), t)), node.value)
    {
      hide CanRun, Run, Threads, Dated, Pool.Valid, SameTable, Apply, Stay, Inv, Held, Own;
      Others(t);
      var ok;
      ok, mine := EnsureNode(t, memory);
      at := |trace|;
      if !ok {
        ReachedNow();
        return None, at, [];
      }
      NowInv();
      ghost var before, past := Now(), trace;
      NoneIsEmpty();
      FirstIsFree(before, t);
      var taken := PopNode(t);
      OwnStepped(before, past, Event.TakeNode(t));
      mine := mine + [Event.TakeNode(t)];
      node := Some(taken);
    }

    method FreeNode(t: Tid, node: nat) returns (ghost mine: seq<Event>)
      requires Valid() && node in Held(Now(), t).nodes
      modifies this, pool, pagemap, Repr
      ensures Valid() && fresh(Repr - old(Repr)) && old(Repr) <= Repr && Did(old(trace), trace, t, mine)
      ensures mine == [Event.ReturnNode(t, node)] && Held(Now(), t) == MinusNode(old(Held(Now(), t)), node)
    {
      hide CanRun, Run, Threads, Dated, Pool.Valid, SameTable, Apply, Stay, Inv, Own;
      Others(t);
      NowInv();
      ghost var before, past := Now(), trace;
      assert node in Held(Now(), t).nodes;
      PushNode(t, node);
      OwnStepped(before, past, Event.ReturnNode(t, node));
      mine := [Event.ReturnNode(t, node)];
    }

    method Unmap(t: Tid, q: nat) returns (ghost mine: seq<Event>)
      requires Valid() && q in Held(Now(), t).quanta
      modifies this, pool, pagemap, Repr
      ensures Valid() && fresh(Repr - old(Repr)) && old(Repr) <= Repr && Did(old(trace), trace, t, mine)
      ensures mine == [Event.Unmap(t, q)] && Held(Now(), t) == Minus(old(Held(Now(), t)), q)
    {
      hide CanRun, Run, Threads, Dated, Pool.Valid, SameTable, Apply, Stay, Inv, Own;
      Others(t);
      NowInv();
      ghost var before, past := Now(), trace;
      assert q in Held(Now(), t).quanta;
      UnmapQuantum(t, q);
      OwnStepped(before, past, Event.Unmap(t, q));
      mine := [Event.Unmap(t, q)];
    }

    /** Registers a quantum in hand under a descriptor in hand. */
    method TryRegister(t: Tid, q: nat, node: nat, slotSize: nat, slotCount: nat, tagged: bool, sys: System)
      returns (generation: nat, ghost why: Why, ghost mine: seq<Event>)
      requires Valid() && q in Held(Now(), t).quanta && node in Held(Now(), t).nodes
      requires 0 < slotSize && 0 < slotCount && slotSize * slotCount <= QUANTUM
      modifies this, pool, pagemap, Repr
      ensures Valid() && fresh(Repr - old(Repr)) && old(Repr) <= Repr && Did(old(trace), trace, t, mine)
      ensures mine == if why.NoLeaf? then [] else [Event.Register(t, q, node, slotSize, slotCount, if tagged then Tag(node) else 0)]
      ensures node !in old(Held(Now(), t)).pages && (why.Made? <==> generation != 0) && (why.NoLeaf? || why.Wrapped? || why.Made?)
      ensures Held(Now(), t) == if why.Made? then WithPage(old(Held(Now(), t)), t, q, node, Entry(slotSize, slotCount, generation)) else old(Held(Now(), t))
      ensures Because(firstCap, trace, |old(trace)|, t, sys, why, q)
    {
      hide CanRun, Run, Threads, Dated, Pool.Valid, SameTable, Apply, Stay, Inv, Held, Own, WrappedAt, Key, Bumped, Exhausted;
      Others(t);
      NowInv();
      ghost var before, past := Now(), trace;
      Replays();
      HeldMeans(before, t, q, node);
      var tag := if tagged then Tag(node) else 0;
      ghost var tried;
      generation, tried := RegisterPage(t, q, node, slotSize, slotCount, tag, sys.leaf);
      ghost var e := Event.Register(t, q, node, slotSize, slotCount, tag);
      mine := [];
      why := if generation != 0 then Made else if tried then Wrapped(|past|) else NoLeaf(|past|);
      ReachedBefore(past, before);
      if tried {
        OwnStepped(before, past, e);
        mine := [e];
        if generation == 0 { WrappedHere(before, past, e); }
      }
    }

    /** Puts a page over a quantum in hand: a descriptor first, then the
        registration. If either fails the thread holds what it held before. */
    method Install(t: Tid, q: nat, slotSize: nat, slotCount: nat, tagged: bool, sys: System)
      returns (node: Option<nat>, ghost why: Why, ghost mine: seq<Event>)
      requires Valid() && q in Held(Now(), t).quanta && 0 < slotSize && 0 < slotCount && slotSize * slotCount <= QUANTUM
      modifies this, pool, pagemap, Repr
      ensures Valid() && fresh(Repr - old(Repr)) && old(Repr) <= Repr && Did(old(trace), trace, t, mine)
      ensures (node.Some? <==> why.Made?) && !why.BadShape? && !why.NoRegion?
      ensures node.Some? ==> PageMade(old(Held(Now(), t)), Held(Now(), t), t, q, node.value, slotSize, slotCount)
      ensures node.None? ==> Held(Now(), t) == old(Held(Now(), t))
      ensures (Tried(mine) <==> why.Made? || why.Wrapped?) && NoAcquire(mine)
      ensures Because(firstCap, trace, |old(trace)|, t, sys, why, q)
    {
      hide CanRun, Run, Threads, Dated, Pool.Valid, SameTable, Apply, Stay, Inv, Held, Own, Tried, Because, WithPage, Enabled;
      ghost var h := Held(Now(), t);
      ghost var at;
      node, at, mine := AllocNode(t, sys.slab);
      if node.None? {
        NoNodeBecause(firstCap, trace, |old(trace)|, t, sys, at, q);
        return None, NoNode(at), mine;
      }
      ghost var until := trace;
      ghost var first := mine;
      ghost var registered;
      var generation;
      generation, why, registered := TryRegister(t, q, node.value, slotSize, slotCount, tagged, sys);
      TriedIn(first, registered);
      BecauseStays(firstCap, trace, trace, |until|, |old(trace)|, t, sys, why, q);
      mine := first + registered;
      if generation == 0 {
        until := trace;
        ghost var freed := FreeNode(t, node.value);
        BecauseStays(firstCap, until, trace, |old(trace)|, |old(trace)|, t, sys, why, q);
        TriedIn(first + registered, freed);
        PlusMinus(h, node.value);
        mine := first + registered + freed;
        node := None;
      } else {
        MadeOver(h, t, q, node.value, Entry(slotSize, slotCount, generation));
      }
    }

    /** Creates a page over `base`, which the thread has in hand, or over a fresh
        quantum. If that fails, the thread holds exactly what it held before: the
        descriptor is back, a fresh quantum is unmapped, a given one stays. */
    method CreateCommon(t: Tid, base: Option<nat>, slotSize: nat, slotCount: nat, tagged: bool, sys: System)
      returns (node: Option<nat>, ghost why: Why, ghost over: nat, ghost mine: seq<Event>)
      requires Valid() && (base.Some? ==> base.value in Held(Now(), t).quanta)
      modifies this, pool, pagemap, Repr
      ensures Valid() && fresh(Repr - old(Repr)) && old(Repr) <= Repr && Did(old(trace), trace, t, mine)
      ensures why.BadShape? <==> slotSize < LINK_SIZE || slotCount == 0 || slotSize * slotCount > QUANTUM
      ensures (node.Some? <==> why.Made?) && (why.BadShape? ==> mine == [])
      ensures node.None? ==> Held(Now(), t) == old(Held(Now(), t))
      ensures node.Some? ==> MadeFrom(old(Held(Now(), t)), Held(Now(), t), t, base, node.value, slotSize, slotCount)
      ensures (Tried(mine) <==> why.Made? || why.Wrapped?) && NoAcquire(mine)
      ensures Because(firstCap, trace, |old(trace)|, t, sys, why, over) && (base.Some? ==> over == base.value && !why.NoRegion?)
      ensures node.Some? ==> node.value in Held(Now(), t).pages && Held(Now(), t).pages[node.value].quantum == over
    {
      hide CanRun, Run, Threads, Dated, Pool.Valid, SameTable, Apply, Stay, Inv, Held, Own, Tried, NoAcquire, Because, Refused, PageMade, Enabled;
      node, mine, over := None, [], if base.Some? then base.value else 0;
      TriedIn([], []);
      NeedsNoReason(firstCap, trace, t, sys, over);
      if slotSize < LINK_SIZE || slotCount == 0 {
        return None, BadShape, over, [];
      }
      if slotSize * slotCount > QUANTUM {
        return None, BadShape, over, [];
      }
      var q := base;
      ghost var h := Held(Now(), t);
      if base.None? {
        ghost var refused;
        q, refused, mine := Reserve(t, sys.region);
        if q.None? {
          NoRegionBecause(firstCap, trace, |old(trace)|, t, sys, refused, over);
          return None, NoRegion(refused), over, mine;
        }
      }
      ghost var reserved, installed, until := mine, [], trace;
      over := q.value;
      node, why, installed := Install(t, q.value, slotSize, slotCount, tagged, sys);
      TriedIn(reserved, installed);
      BecauseStays(firstCap, trace, trace, |until|, |old(trace)|, t, sys, why, over);
      mine := reserved + installed;
      if node.None? && base.None? {
        until := trace;
        ghost var unmapped := Unmap(t, q.value);
        BecauseStays(firstCap, until, trace, |old(trace)|, |old(trace)|, t, sys, why, over);
        TriedIn(mine, unmapped);
        PlusMinusQuantum(h, q.value);
        mine := mine + unmapped;
      }
      if node.Some? {
        MadeFromMade(h, Held(Now(), t), t, base, q.value, node.value, slotSize, slotCount);
      }
    }

    /** A quantum from the pool. `stale` is a peek that came too early. */
    method Recycle(t: Tid, stale: bool) returns (q: Option<nat>, ghost at: nat, ghost mine: seq<Event>)
      requires Valid()
      modifies this, pool, pagemap, Repr
      ensures Valid() && fresh(Repr - old(Repr)) && old(Repr) <= Repr && Did(old(trace), trace, t, mine)
      ensures mine == if q.Some? then [Event.Acquire(t)] else []
      ensures |old(trace)| <= at && TriedPool(firstCap, trace, at, t, stale, q)
      ensures q.None? ==> Held(Now(), t) == old(Held(Now(), t))
      ensures q.Some? ==> q.value !in old(Held(Now(), t)).quanta && Held(Now(), t) == Plus(old(Held(Now(), t)), q.value)
    {
      hide CanRun, Run, Threads, Dated, Pool.Valid, SameTable, Apply, Stay, Inv, Held, Own;
      Others(t);
      NowInv();
      ghost var before, past := Now(), trace;
      Replays();
      q := AcquireBase(t, stale);
      at := |past|;
      ReachedBefore(past, before);
      mine := [];
      if q.Some? {
        PooledIsFree(before, t);
        OwnStepped(before, past, Event.Acquire(t));
        mine := [Event.Acquire(t)];
      }
    }

    /** Offers a quantum in hand to the pool, and unmaps it if the pool is full. */
    method GiveToPool(t: Tid, q: nat, now: nat) returns (cached: bool, ghost at: nat, ghost mine: seq<Event>)
      requires Valid() && q in Held(Now(), t).quanta
      modifies this, pool, pagemap, Repr
      ensures Valid() && fresh(Repr - old(Repr)) && old(Repr) <= Repr && Did(old(trace), trace, t, mine)
      ensures !cached ==> |old(trace)| <= at && PoolFullAt(firstCap, trace, at)
      ensures mine == if cached then [Event.Give(t, q, now)] else [Event.Unmap(t, q)]
      ensures Held(Now(), t) == Minus(old(Held(Now(), t)), q)
    {
      hide CanRun, Run, Threads, Dated, Pool.Valid, SameTable, Apply, Stay, Inv, Own;
      Others(t);
      NowInv();
      ghost var before, past := Now(), trace;
      assert q in Held(Now(), t).quanta;
      Replays();
      at := |past|;
      cached := OfferBase(t, q, now);
      if cached {
        OwnStepped(before, past, Event.Give(t, q, now));
        mine := [Event.Give(t, q, now)];
      } else {
        mine := Unmap(t, q);
        ReachedBefore(past, before);
      }
    }

    /** Creates a page over the quantum at the head of the pool if there is one,
        and over a fresh one otherwise; a pooled quantum that could not be used is
        offered back. `at` is the step at which the pool was locked or, if it
        looked empty, peeked at. */
    method PooledCreate(t: Tid, slotSize: nat, slotCount: nat, tagged: bool, stale: bool, now: nat, sys: System)
      returns (node: Option<nat>, ghost why: Why, ghost base: Option<nat>, ghost at: nat, ghost over: nat, ghost mine: seq<Event>)
      requires Valid()
      modifies this, pool, pagemap, Repr
      ensures Valid() && fresh(Repr - old(Repr)) && old(Repr) <= Repr && Did(old(trace), trace, t, mine)
      ensures why.BadShape? <==> slotSize < LINK_SIZE || slotCount == 0 || slotSize * slotCount > QUANTUM
      ensures node.Some? <==> why.Made?
      ensures node.None? ==> Held(Now(), t) == old(Held(Now(), t))
      ensures node.Some? ==> MadeFrom(old(Held(Now(), t)), Held(Now(), t), t, None, node.value, slotSize, slotCount)
      ensures |old(trace)| <= at && TriedPool(firstCap, trace, at, t, stale, base)
      ensures Because(firstCap, trace, |old(trace)|, t, sys, why, over) && (base.Some? ==> over == base.value && !why.NoRegion?)
      ensures node.Some? ==> node.value in Held(Now(), t).pages && Held(Now(), t).pages[node.value].quantum == over
      ensures if base.None? then NoAcquire(mine) else mine != [] && mine[0] == Event.Acquire(t) && NoAcquire(mine[1..])
      ensures base.Some? && node.None? ==>
                || mine[|mine| - 1] == Event.Give(t, base.value, now)
                || (mine[|mine| - 1] == Event.Unmap(t, base.value) && exists full :: |old(trace)| <= full && PoolFullAt(firstCap, trace, full))
    {
      hide CanRun, Run, Threads, Dated, Pool.Valid, SameTable, Apply, Stay, Inv, Held, Own, Tried, Because, TriedPool, PoolFullAt, Enabled;
      ghost var h := Held(Now(), t);
      ghost var first, then', last;
      var recycled;
      recycled, at, first := Recycle(t, stale);
      base := recycled;
      ghost var until := trace;
      node, why, over, then' := CreateCommon(t, recycled, slotSize, slotCount, tagged, sys);
      mine := first + then';
      BecauseStays(firstCap, trace, trace, |until|, |old(trace)|, t, sys, why, over);
      TriedPoolStays(firstCap, until, trace, at, t, stale, base);
      if node.None? && recycled.Some? {
        until := trace;
        var cached;
        ghost var full;
        cached, full, last := GiveToPool(t, recycled.value, now);
        BecauseStays(firstCap, until, trace, |old(trace)|, |old(trace)|, t, sys, why, over);
        TriedPoolStays(firstCap, until, trace, at, t, stale, base);
        PlusMinusQuantum(h, recycled.value);
        mine := mine + last;
      }
      if node.Some? && recycled.Some? {
        RecycledIsMade(h, Held(Now(), t), t, recycled.value, node.value, slotSize, slotCount);
      }
    }

    /** Takes the page off its quantum, which stays in hand. */
    method DestroyReclaimBase(t: Tid, node: nat) returns (q: nat, ghost mine: seq<Event>)
      requires Valid() && node in Held(Now(), t).pages
      modifies this, pool, pagemap, Repr
      ensures Valid() && fresh(Repr - old(Repr)) && old(Repr) <= Repr && Did(old(trace), trace, t, mine)
      ensures mine == [Event.Release(t, node), Event.ReturnNode(t, node)]
      ensures q == old(Held(Now(), t)).pages[node].quantum && q !in old(Held(Now(), t)).quanta
      ensures Held(Now(), t) == Plus(Without(old(Held(Now(), t)), node), q)
    {
      hide CanRun, Run, Threads, Dated, Pool.Valid, SameTable, Apply, Stay, Inv, Own, Enabled, Held;
      ghost var h := Held(Now(), t);
      Others(t);
      NowInv();
      ghost var before, past := Now(), trace;
      PageMeans(before, t, node);
      q := ReleasePage(t, node);
      OwnStepped(before, past, Event.Release(t, node));
      ghost var freed := FreeNode(t, node);
      PlusMinus(h, node);
      mine := [Event.Release(t, node)] + freed;
    }

    method Destroy(t: Tid, node: nat) returns (ghost mine: seq<Event>)
      requires Valid() && node in Held(Now(), t).pages
      modifies this, pool, pagemap, Repr
      ensures Valid() && fresh(Repr - old(Repr)) && old(Repr) <= Repr && Did(old(trace), trace, t, mine)
      ensures mine == [Event.Release(t, node), Event.ReturnNode(t, node), Event.Unmap(t, old(Held(Now(), t)).pages[node].quantum)]
      ensures Held(Now(), t) == Without(old(Held(Now(), t)), node)
    {
      hide CanRun, Run, Threads, Dated, Pool.Valid, SameTable, Apply, Stay, Inv, Own, Enabled, Held;
      ghost var h := Held(Now(), t);
      ghost var unmapped;
      var q;
      q, mine := DestroyReclaimBase(t, node);
      unmapped := Unmap(t, q);
      PlusMinusQuantum(Without(h, node), q);
      mine := mine + unmapped;
    }

    method PooledDestroy(t: Tid, node: nat, now: nat) returns (cached: bool, ghost at: nat, ghost mine: seq<Event>)
      requires Valid() && node in Held(Now(), t).pages
      modifies this, pool, pagemap, Repr
      ensures Valid() && fresh(Repr - old(Repr)) && old(Repr) <= Repr && Did(old(trace), trace, t, mine)
      ensures var q := old(Held(Now(), t)).pages[node].quantum;
        mine == [Event.Release(t, node), Event.ReturnNode(t, node), if cached then Event.Give(t, q, now) else Event.Unmap(t, q)]
      ensures !cached ==> |old(trace)| <= at && PoolFullAt(firstCap, trace, at)
      ensures Held(Now(), t) == Without(old(Held(Now(), t)), node)
    {
      hide CanRun, Run, Threads, Dated, Pool.Valid, SameTable, Apply, Stay, Inv, Own, Enabled, Held;
      ghost var h := Held(Now(), t);
      ghost var given;
      var q;
      q, mine := DestroyReclaimBase(t, node);
      cached, at, given := GiveToPool(t, q, now);
      PlusMinusQuantum(Without(h, node), q);
      mine := mine + given;
    }

    /** Takes the idle quanta out of the pool, into the thread's hands. */
    method TakeIdle(t: Tid, now: nat, limit: nat) returns (gone: seq<nat>, ghost at: nat)
      requires Valid()
      modifies this, pool, pagemap, Repr
      ensures Valid() && fresh(Repr - old(Repr)) && old(Repr) <= Repr && Did(old(trace), trace, t, [Event.Purge(t, now, limit)])
      ensures |old(trace)| <= at && PurgedAt(firstCap, trace, at, t, now, limit, gone) && NoDup(gone)
      ensures Held(Now(), t) == PlusAll(old(Held(Now(), t)), gone[0..]) && forall q :: q in gone ==> q !in old(Held(Now(), t)).quanta
    {
      hide CanRun, Run, Threads, Dated, Pool.Valid, SameTable, Apply, Stay, Inv, Own, Enabled, Held, Idle, NoDup;
      Others(t);
      NowInv();
      ghost var before, past := Now(), trace;
      Replays();
      gone := UnlinkIdleBases(t, now, limit);
      OwnStepped(before, past, Event.Purge(t, now, limit));
      PurgedIsFree(before, t, now, limit, gone);
      at := |past|;
      assert trace[..at] == past;
    }

    lemma ReachedNow()
      requires Valid()
      ensures Reached(firstCap, trace, |trace|) && StateAt(firstCap, trace, |trace|) == Now()
    {
      assert trace[..|trace|] == trace;
    }

    lemma ReachedBefore(past: seq<Event>, before: State)
      requires past <= trace && CanRun(Init(firstCap), past) && Run(Init(firstCap), past) == before
      ensures Reached(firstCap, trace, |past|) && StateAt(firstCap, trace, |past|) == before
    {
      assert trace[..|past|] == past;
    }

    lemma Replays()
      requires Valid()
      ensures CanRun(Init(firstCap), trace) && Run(Init(firstCap), trace) == Now()
    {}

    /** Gives back to the system every quantum that has been in the pool for at
        least `limit` when the pool is locked, which is step `at`. */
    method Purge(t: Tid, now: nat, limit: nat) returns (purged: nat, ghost gone: seq<nat>, ghost at: nat, ghost mine: seq<Event>)
      requires Valid()
      modifies this, pool, pagemap, Repr
      ensures Valid() && fresh(Repr - old(Repr)) && old(Repr) <= Repr && Did(old(trace), trace, t, mine)
      ensures mine == [Event.Purge(t, now, limit)] + Unmaps(t, gone) && purged == |gone| && NoDup(gone)
      ensures |old(trace)| <= at && PurgedAt(firstCap, trace, at, t, now, limit, gone)
      ensures Held(Now(), t) == old(Held(Now(), t))
    {
      hide CanRun, Run, Threads, Dated, Pool.Valid, SameTable, Apply, Stay, Inv, Own, Enabled, Held, Unmaps, PurgedAt, NoDup;
      ghost var h := Held(Now(), t);
      var bases;
      bases, at := TakeIdle(t, now, limit);
      gone := bases;
      ghost var past := trace;
      ghost var unmapped := UnmapEach(t, bases, h);
      PurgedStays(firstCap, past, trace, at, t, now, limit, gone);
      purged := |bases|;
      mine := [Event.Purge(t, now, limit)] + unmapped;
    }

    /** Gives back quanta that the thread holds beside `h`, one by one. */
    method UnmapEach(t: Tid, bases: seq<nat>, ghost h: Holdings) returns (ghost mine: seq<Event>)
      requires Valid() && NoDup(bases) && (forall q :: q in bases ==> q !in h.quanta) && Held(Now(), t) == PlusAll(h, bases[0..])
      modifies this, pool, pagemap, Repr
      ensures Valid() && fresh(Repr - old(Repr)) && old(Repr) <= Repr && Did(old(trace), trace, t, mine)
      ensures mine == Unmaps(t, bases) && Held(Now(), t) == h
    {
      hide CanRun, Run, Threads, Dated, Pool.Valid, SameTable, Apply, Stay, Inv, Own, Enabled, Held, Unmaps, NoDup;
      NothingUnmapped(h, t, bases);
      mine := [];
      var k := 0;
      while k < |bases|
        invariant Valid() && fresh(Repr - old(Repr)) && old(Repr) <= Repr && Did(old(trace), trace, t, mine)
        invariant k <= |bases| && mine == Unmaps(t, bases[..k]) && Held(Now(), t) == PlusAll(h, bases[k..])
      {
        UnmappedNext(h, t, bases, k);
        ghost var unmapped := Unmap(t, bases[k]);
        mine := mine + unmapped;
        k := k + 1;
      }
    }

    lemma WrappedHere(before: State, past: seq<Event>, e: Event)
      requires Stepped(before, past, e) && CanRun(Init(firstCap), past) && Run(Init(firstCap), past) == before
      requires e.Register? && Exhausted(before.records, e.q)
      ensures WrappedAt(firstCap, trace, |past|, e.tid, e.q)
    {
      hide CanRun, Run, Threads, Dated, Exhausted;
      assert trace[..|past|] == past;
    }
  }

  // What the run shows of a failure.

  ghost predicate Reached(cap: nat, trace: seq<Event>, at: nat) {
    at <= |trace| && CanRun(Init(cap), trace[..at])
  }

  ghost function StateAt(cap: nat, trace: seq<Event>, at: nat): State
    requires Reached(cap, trace, at)
  {
    Run(Init(cap), trace[..at])
  }

  lemma StateStays(cap: nat, a: seq<Event>, b: seq<Event>, at: nat)
    requires Reached(cap, a, at) && a <= b
    ensures Reached(cap, b, at) && StateAt(cap, b, at) == StateAt(cap, a, at)
  {
    assert b[..at] == a[..at];
  }

  /** The reservoir is used up, and the system maps no region. */
  predicate Refused(s: State, t: Tid, answer: Option<nat>) {
    s.cursor == s.end && (answer.Some? ==> !Enabled(s, Event.Refill(t, answer.value)))
  }

  /** No leaf of the page map covers the quantum. */
  ghost predicate NoLeafFor(records: map<nat, Record>, q: nat) {
    forall k: nat :: k in records ==> k / LEAF_SIZE != RootIndex(PageIndex(q * QUANTUM))
  }

  /** The failure `why` to put a page over `q` has a reason in the run, at some
      step from `from` on. */
  ghost predicate Because(cap: nat, trace: seq<Event>, from: nat, t: Tid, sys: System, why: Why, q: nat) {
    match why
    case NoRegion(at) => from <= at && Reached(cap, trace, at) && Refused(StateAt(cap, trace, at), t, sys.region)
    case NoNode(at) => from <= at && Reached(cap, trace, at) && StateAt(cap, trace, at).free == [] && !sys.slab
    case NoLeaf(at) => from <= at && Reached(cap, trace, at) && NoLeafFor(StateAt(cap, trace, at).records, q) && !sys.leaf
    case Wrapped(at) => from <= at && WrappedAt(cap, trace, at, t, q)
    case _ => true
  }

  lemma BecauseStays(cap: nat, a: seq<Event>, b: seq<Event>, from: nat, from': nat, t: Tid, sys: System, why: Why, q: nat)
    requires Because(cap, a, from, t, sys, why, q) && a <= b && from' <= from
    ensures Because(cap, b, from', t, sys, why, q)
  {
    hide Refused, NoLeafFor, Run, CanRun;
    if why.Wrapped? {
      WrappedStays(cap, a, b, why.at, t, q);
    } else if !why.Made? && !why.BadShape? {
      StateStays(cap, a, b, why.at);
    }
  }

  lemma NeedsNoReason(cap: nat, trace: seq<Event>, t: Tid, sys: System, q: nat)
    ensures Because(cap, trace, |trace|, t, sys, BadShape, q) && Because(cap, trace, |trace|, t, sys, Made, q)
  {}

  lemma NoNodeBecause(cap: nat, trace: seq<Event>, from: nat, t: Tid, sys: System, at: nat, q: nat)
    requires from <= at && Reached(cap, trace, at) && StateAt(cap, trace, at).free == [] && !sys.slab
    ensures Because(cap, trace, from, t, sys, NoNode(at), q)
  {}

  lemma NoRegionBecause(cap: nat, trace: seq<Event>, from: nat, t: Tid, sys: System, at: nat, q: nat)
    requires from <= at && Reached(cap, trace, at) && Refused(StateAt(cap, trace, at), t, sys.region)
    ensures Because(cap, trace, from, t, sys, NoRegion(at), q)
  {}

  /** At step `at` the thread took the newest quantum out of the pool, or the
      pool was empty, or the thread had peeked too early. */
  ghost predicate TriedPool(cap: nat, trace: seq<Event>, at: nat, t: Tid, stale: bool, q: Option<nat>) {
    && Reached(cap, trace, at) && (q.None? <==> stale || StateAt(cap, trace, at).pool == [])
    && (q.Some? ==> at < |trace| && trace[at] == Event.Acquire(t) && StateAt(cap, trace, at).pool[0] == q.value)
  }

  lemma TriedPoolStays(cap: nat, a: seq<Event>, b: seq<Event>, at: nat, t: Tid, stale: bool, q: Option<nat>)
    requires TriedPool(cap, a, at, t, stale, q) && a <= b
    ensures TriedPool(cap, b, at, t, stale, q)
  {
    StateStays(cap, a, b, at);
  }

  ghost predicate PoolFullAt(cap: nat, trace: seq<Event>, at: nat) {
    Reached(cap, trace, at) && |StateAt(cap, trace, at).pool| >= StateAt(cap, trace, at).cap
  }

  predicate NoAcquire(es: seq<Event>) {
    forall e :: e in es ==> !e.Acquire?
  }

  lemma WrappedStays(cap: nat, a: seq<Event>, b: seq<Event>, at: nat, t: Tid, q: nat)
    requires WrappedAt(cap, a, at, t, q) && a <= b
    ensures WrappedAt(cap, b, at, t, q)
  {
    assert b[..at] == a[..at];
  }

  lemma HeldMeans(s: State, t: Tid, q: nat, node: nat)
    requires Inv(s) && q in Held(s, t).quanta && node in Held(s, t).nodes
    ensures Holds(s, t, q) && HoldsNode(s, t, node) && node !in Held(s, t).pages
  {
    hide PoolOk, OwnersOk, MapOk;
  }

  lemma TriedIn(a: seq<Event>, b: seq<Event>)
    ensures Tried(a + b) <==> Tried(a) || Tried(b)
    ensures NoAcquire(a + b) <==> NoAcquire(a) && NoAcquire(b)
    ensures |b| == 1 ==> (NoAcquire(b) <==> !b[0].Acquire?)
    ensures |b| == 0 ==> NoAcquire(b)
    ensures |b| == 1 ==> (Tried(b) <==> b[0].Register?)
    ensures |b| == 0 ==> !Tried(b)
  {
    if Tried(a) {
      var e :| e in a && e.Register?;
      assert e in a + b;
    }
    if NoAcquire(a + b) {
      assert forall e :: e in a ==> e in a + b;
      assert forall e :: e in b ==> e in a + b;
    }
    if |b| == 1 { assert b[0] in b; }
    if Tried(b) {
      var e :| e in b && e.Register?;
      assert e in a + b;
    }
    if |b| == 1 && b[0].Register? { assert b[0] in b; }
  }

  lemma PlusMinus(h: Holdings, node: nat)
    requires node !in h.nodes
    ensures MinusNode(PlusNode(h, node), node) == h
  {
    assert h.nodes + {node} - {node} == h.nodes;
  }

  /** The page of entry `e` that `t` has made from a quantum and a descriptor. */
  function WithPage(h: Holdings, t: Tid, q: nat, node: nat, e: Entry): Holdings {
    Holdings(h.quanta - {q}, h.nodes - {node}, h.pages[node := LivePage(q, e, t)])
  }

  lemma MadeOver(h: Holdings, t: Tid, q: nat, node: nat, e: Entry)
    requires node !in h.nodes && node !in h.pages && e.generation > 0
    ensures PageMade(h, WithPage(PlusNode(h, node), t, q, node, e), t, q, node, e.slotSize, e.slotCount)
  {
    assert h.nodes + {node} - {node} == h.nodes;
  }

  /** The page is gone, and nothing else. */
  function Without(h: Holdings, node: nat): Holdings { h.(pages := h.pages - {node}) }

  function PlusAll(h: Holdings, qs: seq<nat>): Holdings { h.(quanta := h.quanta + Elements(qs)) }

  lemma PlusMinusQuantum(h: Holdings, q: nat)
    requires q !in h.quanta
    ensures Minus(Plus(h, q), q) == h
  {
    assert h.quanta + {q} - {q} == h.quanta;
  }

  lemma PooledIsFree(s: State, t: Tid)
    requires Inv(s) && s.pool != []
    ensures s.pool[0] !in Held(s, t).quanta
  {
    hide OwnersOk, NodesOk, MapOk;
    assert s.pool[0] in s.pool;
  }

  lemma PageMeans(s: State, t: Tid, node: nat)
    requires Inv(s) && node in Held(s, t).pages
    ensures Enabled(s, Event.Release(t, node)) && node !in Held(s, t).nodes
    ensures s.pages[node] == Held(s, t).pages[node] && s.pages[node].quantum !in Held(s, t).quanta
  {
    hide PoolOk, MapOk;
  }

  lemma PurgedIsFree(s: State, t: Tid, now: nat, limit: nat, gone: seq<nat>)
    requires Inv(s) && NoDup(gone) && forall q :: q in gone <==> q in Idle(s, now, limit)
    ensures HeldAfter(s, Event.Purge(t, now, limit), Held(s, t)) == PlusAll(Held(s, t), gone[0..])
    ensures forall q :: q in gone ==> q !in Held(s, t).quanta
  {
    hide OwnersOk, NodesOk, MapOk;
    assert gone[0..] == gone && Idle(s, now, limit) == Elements(gone);
  }

  lemma NothingUnmapped(h: Holdings, t: Tid, bases: seq<nat>)
    ensures Unmaps(t, bases[..0]) == [] && bases[..|bases|] == bases && PlusAll(h, bases[|bases|..]) == h
  {
    assert h.quanta + Elements([]) == h.quanta;
  }

  lemma UnmappedNext(h: Holdings, t: Tid, bases: seq<nat>, k: nat)
    requires k < |bases| && NoDup(bases) && forall q :: q in bases ==> q !in h.quanta
    ensures bases[k] in PlusAll(h, bases[k..]).quanta && Minus(PlusAll(h, bases[k..]), bases[k]) == PlusAll(h, bases[k + 1..])
    ensures Unmaps(t, bases[..k + 1]) == Unmaps(t, bases[..k]) + [Event.Unmap(t, bases[k])]
  {
    assert bases[k..] == [bases[k]] + bases[k + 1..];
    assert h.quanta + Elements(bases[k..]) - {bases[k]} == h.quanta + Elements(bases[k + 1..]);
  }

  /** A page has been made over `base`, or else over a quantum that the thread
      did not have before. */
  ghost predicate MadeFrom(h: Holdings, h': Holdings, t: Tid, base: Option<nat>, node: nat, slotSize: nat, slotCount: nat) {
    exists q :: (if base.Some? then q == base.value else q !in h.quanta) && PageMade(h, h', t, q, node, slotSize, slotCount)
  }

  lemma MadeFromMade(h: Holdings, h': Holdings, t: Tid, base: Option<nat>, q: nat, node: nat, slotSize: nat, slotCount: nat)
    requires if base.Some? then q == base.value && PageMade(h, h', t, q, node, slotSize, slotCount)
             else q !in h.quanta && PageMade(Plus(h, q), h', t, q, node, slotSize, slotCount)
    ensures MadeFrom(h, h', t, base, node, slotSize, slotCount) && node in h'.pages && h'.pages[node].quantum == q
  {
    if base.None? {
      assert h.quanta + {q} - {q} == h.quanta == h.quanta - {q};
      assert PageMade(h, h', t, q, node, slotSize, slotCount);
    }
  }

  lemma RecycledIsMade(h: Holdings, h': Holdings, t: Tid, q: nat, node: nat, slotSize: nat, slotCount: nat)
    requires q !in h.quanta && MadeFrom(Plus(h, q), h', t, Some(q), node, slotSize, slotCount)
    ensures MadeFrom(h, h', t, None, node, slotSize, slotCount)
  {
    MadeFromMade(h, h', t, None, q, node, slotSize, slotCount);
  }

  /** A page of the requested shape has been made over `q`. */
  predicate PageMade(h: Holdings, h': Holdings, t: Tid, q: nat, node: nat, slotSize: nat, slotCount: nat) {
    && node !in h.pages && node !in h.nodes && node in h'.pages && h'.pages[node].entry.generation > 0
    && h' == Holdings(h.quanta - {q}, h.nodes, h.pages[node := LivePage(q, Entry(slotSize, slotCount, h'.pages[node].entry.generation), t)])
  }

  /** The step `at` of the run is a registration of `q` that wrapped. */
  predicate WrappedAt(cap: nat, trace: seq<Event>, at: nat, t: Tid, q: nat) {
    at < |trace| && trace[at].Register? && trace[at].tid == t && trace[at].q == q
    && CanRun(Init(cap), trace[..at]) && Exhausted(Run(Init(cap), trace[..at]).records, q)
  }

  /** The step `at` of the run is a purge, and `gone` are the quanta that had then
      been in the pool for at least `limit`. */
  ghost predicate PurgedAt(cap: nat, trace: seq<Event>, at: nat, t: Tid, now: nat, limit: nat, gone: seq<nat>) {
    at < |trace| && trace[at] == Event.Purge(t, now, limit) && CanRun(Init(cap), trace[..at])
    && forall q :: q in gone <==> q in Idle(Run(Init(cap), trace[..at]), now, limit)
  }

  lemma PurgedStays(cap: nat, a: seq<Event>, b: seq<Event>, at: nat, t: Tid, now: nat, limit: nat, gone: seq<nat>)
    requires PurgedAt(cap, a, at, t, now, limit, gone) && a <= b
    ensures PurgedAt(cap, b, at, t, now, limit, gone)
  {
    assert b[..at] == a[..at];
  }

  function Plus(h: Holdings, q: nat): Holdings { h.(quanta := h.quanta + {q}) }

  function Minus(h: Holdings, q: nat): Holdings { h.(quanta := h.quanta - {q}) }

  function PlusNode(h: Holdings, node: nat): Holdings { h.(nodes := h.nodes + {node}) }

  function MinusNode(h: Holdings, node: nat): Holdings { h.(nodes := h.nodes - {node}) }

  lemma RegisterMeans(s: State, t: Tid, q: nat, node: nat, slotSize: nat, slotCount: nat, tag: nat)
    requires Enabled(s, Event.Register(t, q, node, slotSize, slotCount, tag))
    ensures Holds(s, t, q) && HoldsNode(s, t, node) && 0 < slotSize && 0 < slotCount && slotSize * slotCount <= QUANTUM
    ensures Apply(s, Event.Register(t, q, node, slotSize, slotCount, tag)) ==
            var g := Bumped(At(s.records, Key(q * QUANTUM)));
            var s' := s.(records := Registered(s.records, q * QUANTUM, slotSize, slotCount, tag, 0));
            if g == 0 then s'
            else s'.(pages := s.pages[node := LivePage(q, Entry(slotSize, slotCount, g), t)], busy := s.busy - {node}, owner := s.owner[q := Live(node)])
  {}

  lemma ReleaseMeans(s: State, t: Tid, node: nat)
    requires Enabled(s, Event.Release(t, node))
    ensures node in s.pages
    ensures Apply(s, Event.Release(t, node)) ==
            var q := s.pages[node].quantum;
            s.(records := Released(s.records, q * QUANTUM), pages := s.pages - {node}, busy := s.busy[node := t], owner := s.owner[q := InHand(t)])
  {}

  /** A registration was made. */
  predicate Tried(mine: seq<Event>) {
    exists e :: e in mine && e.Register?
  }

  lemma RefilledLeaves(s: State, e: Event)
    requires Enabled(s, e) && e.Refill?
    ensures Apply(s, e).cursor < Apply(s, e).end
  {}

  lemma CursorIsFree(s: State, t: Tid)
    requires Inv(s) && s.cursor < s.end
    ensures s.cursor !in Held(s, t).quanta
  {
    hide PoolOk, NodesOk, MapOk;
    assert s.cursor in s.owner && s.owner[s.cursor] == Reservoir;
  }

  lemma FirstIsFree(s: State, t: Tid)
    requires Inv(s) && s.free != []
    ensures s.free[0] !in Held(s, t).nodes
  {
    hide PoolOk, OwnersOk, MapOk;
    assert s.free[0] in s.free;
  }

  lemma TakenByList(owner: map<nat, Owner>, pool: seq<nat>, idle: set<nat>, gone: seq<nat>, t: Tid)
    requires (forall q :: q in gone <==> q in idle) && forall q :: q in idle ==> q in pool
    ensures (map q | q in owner :: if q in gone then InHand(t) else owner[q]) == Taken(owner, pool, idle, t)
  {}

  /** `since` says when each of the nodes was released. */
  ghost predicate Dated(nodes: seq<PoolNode>, since: map<nat, nat>)
    reads nodes`releasedAt
  {
    forall n :: n in nodes ==> n.base in since && since[n.base] == n.releasedAt
  }

  lemma DatedRest(nodes: seq<PoolNode>, rest: seq<PoolNode>, node: PoolNode, since: map<nat, nat>)
    requires NoDup(Bases(nodes)) && nodes == [node] + rest && Dated(nodes, since)
    ensures Dated(rest, since - {node.base})
  {
    forall n | n in rest ensures n in nodes && n.base != node.base {
      var i :| 0 <= i < |rest| && rest[i] == n;
      assert nodes[i + 1] == n && Bases(nodes)[0] != Bases(nodes)[i + 1];
    }
  }

  // Sorting nodes by age is sorting their quanta.

  predicate SameSorting(nodes: seq<PoolNode>, old': set<PoolNode>, idle: set<nat>) {
    forall i :: 0 <= i < |nodes| ==> (nodes[i].base in idle <==> nodes[i] in old')
  }

  lemma BasesApart(nodes: seq<PoolNode>, a: PoolNode, b: PoolNode)
    requires NoDup(Bases(nodes)) && a in nodes && b in nodes && a.base == b.base
    ensures a == b
  {
    var i :| 0 <= i < |nodes| && nodes[i] == a;
    var j :| 0 <= j < |nodes| && nodes[j] == b;
    assert Bases(nodes)[i] == Bases(nodes)[j];
  }

  lemma {:induction false} KeptBases(nodes: seq<PoolNode>, old': set<PoolNode>, idle: set<nat>)
    requires SameSorting(nodes, old', idle)
    ensures Bases(Kept(nodes, old')) == Stay(Bases(nodes), idle)
  {
    if nodes != [] {
      var n := |nodes| - 1;
      KeptBases(nodes[..n], old', idle);
      BasesLast(nodes);
      hide Bases;
      BasesAppend(Kept(nodes[..n], old'), if nodes[n] in old' then [] else [nodes[n]]);
    }
  }

  lemma BasesLast(nodes: seq<PoolNode>)
    requires nodes != []
    ensures var n := |nodes| - 1; Bases(nodes)[..n] == Bases(nodes[..n]) && Bases(nodes)[n] == nodes[n].base && |Bases(nodes)| == n + 1
  {}

  lemma BasesAppend(a: seq<PoolNode>, b: seq<PoolNode>)
    ensures Bases(a + b) == Bases(a) + Bases(b)
    ensures |b| == 1 ==> Bases(b) == [b[0].base]
    ensures b == [] ==> Bases(b) == []
  {}

  /** The quanta of the nodes that are too old. */
  lemma SortByAge(nodes: seq<PoolNode>, now: nat, limit: nat, idle: set<nat>)
    requires NoDup(nodes) && NoDup(Bases(nodes))
    requires forall n :: n in nodes ==> (n.base in idle <==> TooIdle(now, limit, n.releasedAt))
    requires forall q :: q in idle ==> q in Bases(nodes)
    ensures var old' := Old(nodes, now, limit);
      && Bases(Kept(nodes, old')) == Stay(Bases(nodes), idle)
      && NoDup(Bases(Gone(nodes, old'))) && (forall q :: q in Bases(Gone(nodes, old')) <==> q in idle)
      && (forall n :: n in Kept(nodes, old') ==> n.base !in idle)
  {
    KeptBases(nodes, Old(nodes, now, limit), idle);
    GoneBases(nodes, Old(nodes, now, limit), idle);
  }

  lemma GoneBases(nodes: seq<PoolNode>, old': set<PoolNode>, idle: set<nat>)
    requires NoDup(nodes) && NoDup(Bases(nodes)) && SameSorting(nodes, old', idle)
    ensures NoDup(Bases(Gone(nodes, old'))) && forall q :: q in Bases(Gone(nodes, old')) <==> q in Bases(nodes) && q in idle
  {
    var gone := Gone(nodes, old');
    FiltersDistinct(nodes, old');
    forall i, j | 0 <= i < j < |gone| ensures gone[i].base != gone[j].base {
      assert gone[i] in gone && gone[j] in gone;
      if gone[i].base == gone[j].base { BasesApart(nodes, gone[i], gone[j]); }
    }
    forall q ensures q in Bases(gone) <==> q in Bases(nodes) && q in idle {
      if q in Bases(gone) {
        var i :| 0 <= i < |gone| && Bases(gone)[i] == q;
        assert gone[i] in gone;
        var k :| 0 <= k < |nodes| && nodes[k] == gone[i];
        assert Bases(nodes)[k] == q;
      }
      if q in Bases(nodes) && q in idle {
        var k :| 0 <= k < |nodes| && Bases(nodes)[k] == q;
        assert nodes[k] in gone;
        var i :| 0 <= i < |gone| && gone[i] == nodes[k];
        assert Bases(gone)[i] == q;
      }
    }
  }
}
