/** A run that uses up the generations of one quantum: a page is created over it
    and destroyed again, through the pool, 2^32 - 1 times. */
module GenerationWrap {
  import opened Routing
  import opened PageMap
  import opened MemoryProtocol

  const Q: nat := 1

  /** The quanta of the first region, the first one of which is with `o`. */
  function Quanta(o: Owner): (r: map<nat, Owner>)
    ensures Q in r && r[Q] == o
  {
    Region(Q, Q + REGION_COUNT)[Q := o]
  }

  function Sheet(slotSize: nat, g: nat): map<nat, Record> {
    map[Q := Record(Q * QUANTUM, Entry(slotSize, 1, g), 0, 0)]
  }

  /** A page of generation `g` is over the quantum. */
  function InUse(g: nat): State {
    State(Quanta(Live(0)), Q + 1, Q + REGION_COUNT, [], map[], 1, [], 1, map[], map[0 := LivePage(Q, Entry(16, 1, g), 0)], Sheet(16, g))
  }

  /** Quantum and descriptor are in the thread's hands; the page map holds `r`. */
  function Apart(r: map<nat, Record>): State {
    State(Quanta(InHand(0)), Q + 1, Q + REGION_COUNT, [], map[], 1, [], 1, map[0 := 0], map[], r)
  }

  function NodeBack(r: map<nat, Record>): State {
    State(Quanta(InHand(0)), Q + 1, Q + REGION_COUNT, [], map[], 1, [0], 1, map[], map[], r)
  }

  function InPool(r: map<nat, Record>): State {
    State(Quanta(Pooled), Q + 1, Q + REGION_COUNT, [Q], map[Q := 0], 1, [0], 1, map[], map[], r)
  }

  predicate Leads(es: seq<Event>, s: State) {
    CanRun(Init(1), es) && Run(Init(1), es) == s
  }

  lemma Then(es: seq<Event>, s: State, e: Event, s': State) returns (longer: seq<Event>)
    requires Leads(es, s) && Enabled(s, e) && Apply(s, e) == s'
    ensures Leads(longer, s')
  {
    RunStep(Init(1), es, e);
    longer := es + [e];
  }

  // One event at a time.

  lemma Reuse(o: Owner, o': Owner)
    ensures Quanta(o)[Q := o'] == Quanta(o')
  {}

  lemma Started() returns (es: seq<Event>)
    ensures Leads(es, NodeBack(map[]))
  {
    var none: map<nat, Record> := map[];
    var region := Region(Q, Q + REGION_COUNT);
    var s1 := State(region, Q, Q + REGION_COUNT, [], map[], 1, [], 0, map[], map[], none);
    var s2 := s1.(owner := Quanta(InHand(0)), cursor := Q + 1);
    es := [];
    assert map[] + region == region;
    es := Then(es, Init(1), Refill(0, Q), s1);
    es := Then(es, s1, HandOut(0), s2);
    assert Slab(0, 1) == [0];
    es := Then(es, s2, NewSlab(0, 1), NodeBack(none));
  }

  lemma TakesNode(es: seq<Event>, r: map<nat, Record>) returns (longer: seq<Event>)
    requires Leads(es, NodeBack(r))
    ensures Leads(longer, Apart(r))
  {
    longer := Then(es, NodeBack(r), TakeNode(0), Apart(r));
  }

  lemma GivesBack(es: seq<Event>, r: map<nat, Record>) returns (longer: seq<Event>)
    requires Leads(es, Apart(r))
    ensures Leads(longer, InPool(r))
  {
    assert map[0 := 0] - {0} == map[];
    longer := Then(es, Apart(r), ReturnNode(0, 0), NodeBack(r));
    Reuse(InHand(0), Pooled);
    longer := Then(longer, NodeBack(r), Give(0, Q, 0), InPool(r));
  }

  lemma TakesBack(es: seq<Event>, r: map<nat, Record>) returns (longer: seq<Event>)
    requires Leads(es, InPool(r))
    ensures Leads(longer, Apart(r))
  {
    Reuse(Pooled, InHand(0));
    longer := Then(es, InPool(r), Acquire(0), NodeBack(r));
    longer := TakesNode(longer, r);
  }

  lemma Registers(es: seq<Event>, r: map<nat, Record>) returns (longer: seq<Event>)
    requires Leads(es, Apart(r)) && (r == map[] || exists g :: 0 < g < WORD32 && r == Sheet(0, g))
    ensures var g := Bumped(At(r, Q)); Leads(longer, if g == 0 then Apart(Sheet(16, 0)) else InUse(g))
  {
    var g := Bumped(At(r, Q));
    KeyOfQuantum(Q);
    Reuse(InHand(0), Live(0));
    assert r[Q := Record(Q * QUANTUM, Entry(16, 1, g), 0, 0)] == Sheet(16, g);
    assert map[0 := 0] - {0} == map[];
    longer := Then(es, Apart(r), Register(0, Q, 0, 16, 1, 0), if g == 0 then Apart(Sheet(16, 0)) else InUse(g));
  }

  lemma Releases(es: seq<Event>, g: nat) returns (longer: seq<Event>)
    requires Leads(es, InUse(g)) && g > 0
    ensures Leads(longer, Apart(Sheet(0, g)))
  {
    KeyOfQuantum(Q);
    Reuse(Live(0), InHand(0));
    assert Sheet(16, g)[Q := Record(Q * QUANTUM, Entry(0, 1, g), 0, 0)] == Sheet(0, g);
    longer := Then(es, InUse(g), Release(0, 0), Apart(Sheet(0, g)));
  }

  /** Destroyed through the pool and created again. */
  lemma Cycle(es: seq<Event>, g: nat) returns (longer: seq<Event>)
    requires Leads(es, InUse(g)) && 0 < g < WORD32
    ensures Leads(longer, if g + 1 == WORD32 then Apart(Sheet(16, 0)) else InUse(g + 1))
  {
    hide Leads, Apart, InPool, InUse;
    longer := Releases(es, g);
    longer := GivesBack(longer, Sheet(0, g));
    longer := TakesBack(longer, Sheet(0, g));
    longer := Registers(longer, Sheet(0, g));
  }

  /** Every generation of a 32-bit word is reached, the last one included. */
  lemma {:induction false} ReachesGeneration(g: nat) returns (es: seq<Event>)
    requires 0 < g < WORD32
    ensures Leads(es, InUse(g))
  {
    hide Leads, Apart, InUse;
    if g == 1 {
      es := Started();
      es := TakesNode(es, map[]);
      es := Registers(es, map[]);
    } else {
      es := ReachesGeneration(g - 1);
      es := Cycle(es, g - 1);
    }
  }

  /** A reachable state in which the page map has no generation left for a
      quantum. */
  lemma ExhaustedReachably() returns (es: seq<Event>)
    ensures CanRun(Init(1), es) && Exhausted(Run(Init(1), es).records, Q)
  {
    es := ReachesGeneration(WORD32 - 1);
  }

  /** And one in which the page map still answers for a quantum in the pool. */
  lemma PooledYetListedReachably() returns (es: seq<Event>)
    ensures CanRun(Init(1), es)
    ensures var s := Run(Init(1), es); Q in s.pool && Listed(s, Q) && Orphan(s, Q)
  {
    es := ReachesGeneration(WORD32 - 1);
    es := Cycle(es, WORD32 - 1);
    es := GivesBack(es, Sheet(16, 0));
  }
}
