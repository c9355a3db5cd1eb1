/** The multi-producer, single-consumer ticket inbox: producers take a ticket
    from `tail`, wait until their cell's sequence number is that ticket, store
    the item and publish ticket + 1; the consumer delivers from `head` and hands
    each cell on to the ticket one lap later. Every atomic operation is a step. */
module TicketInbox {
  import opened RingIndex

  type Tid = nat
  type Item = nat

  datatype Producer = Waiting(ticket: nat, item: Item) | Writing(ticket: nat, item: Item) | Publishing(ticket: nat, item: Item)

  /** What the consumer does next, at position `h`. */
  datatype Consumer = Outside | Testing(h: nat) | Loading(h: nat) | Clearing(h: nat, item: Item) | Freeing(h: nat, item: Item)
                    | Releasing(h: nat) | Leaving(h: nat)

  /** `turn[c]` is the sequence number of cell `c`. `sent` lists the items in
      ticket order and `freed` the items delivered, in order. */
  datatype State = State(head: nat, tail: nat, turn: seq<nat>, cells: seq<Item>, producers: map<Tid, Producer>,
                         consumer: Consumer, sent: seq<Item>, freed: seq<Item>)

  datatype Event = Take(tid: Tid, item: Item) | Enter(tid: Tid) | Write(tid: Tid) | Publish(tid: Tid) | Consume

  function Init(cap: nat): State {
    State(0, 0, seq(cap, i => i), seq(cap, i => 0), map[], Outside, [], [])
  }

  function Cap(s: State): nat { |s.turn| }

  predicate WellSized(s: State) {
    Cap(s) > 0 && |s.cells| == Cap(s)
  }

  predicate Enabled(s: State, e: Event) {
    WellSized(s) &&
    match e
    case Take(t, item) => t !in s.producers
    case Enter(t) => t in s.producers && s.producers[t].Waiting? && s.turn[Cell(Cap(s), s.producers[t].ticket)] == s.producers[t].ticket
    case Write(t) => t in s.producers && s.producers[t].Writing?
    case Publish(t) => t in s.producers && s.producers[t].Publishing?
    case Consume => true
  }

  function Apply(s: State, e: Event): State
    requires Enabled(s, e)
  {
    match e
    case Take(t, item) =>
      s.(tail := s.tail + 1, producers := s.producers[t := Waiting(s.tail, item)], sent := s.sent + [item])
    case Enter(t) =>
      s.(producers := s.producers[t := Writing(s.producers[t].ticket, s.producers[t].item)])
    case Write(t) =>
      s.(cells := s.cells[Cell(Cap(s), s.producers[t].ticket) := s.producers[t].item],
         producers := s.producers[t := Publishing(s.producers[t].ticket, s.producers[t].item)])
    case Publish(t) =>
      s.(turn := s.turn[Cell(Cap(s), s.producers[t].ticket) := s.producers[t].ticket + 1], producers := s.producers - {t})
    case Consume => ConsumerStep(s)
  }

  function ConsumerStep(s: State): State
    requires WellSized(s)
  {
    match s.consumer
    case Outside => s.(consumer := Testing(s.head))
    case Testing(h) => s.(consumer := if s.turn[Cell(Cap(s), h)] == h + 1 then Loading(h) else Leaving(h))
    case Loading(h) => s.(consumer := Clearing(h, s.cells[Cell(Cap(s), h)]))
    case Clearing(h, item) => s.(cells := s.cells[Cell(Cap(s), h) := 0], consumer := Freeing(h, item))
    case Freeing(h, item) => s.(freed := s.freed + [item], consumer := Releasing(h))
    case Releasing(h) => s.(turn := s.turn[Cell(Cap(s), h) := h + Cap(s)], consumer := Testing(h + 1))
    case Leaving(h) => s.(head := h, consumer := Outside)
  }

  /** The first ticket whose cell the consumer has not handed on. */
  function At(s: State): nat {
    if s.consumer == Outside then s.head else s.consumer.h
  }

  /** A ticket is held by at most one producer, which is past the wait only if
      the cell is its own. */
  predicate ProducerOk(s: State, t: Tid)
    requires WellSized(s) && t in s.producers
  {
    var p := s.producers[t];
    && At(s) <= p.ticket < s.tail && p.ticket < |s.sent| && s.sent[p.ticket] == p.item
    && (p.ticket < At(s) + Cap(s) ==> s.turn[Cell(Cap(s), p.ticket)] == p.ticket)
    && (!p.Waiting? ==> p.ticket < At(s) + Cap(s))
    && (p.Publishing? ==> s.cells[Cell(Cap(s), p.ticket)] == p.item)
  }

  ghost predicate OneHolder(s: State) {
    forall t, u :: t in s.producers && u in s.producers && s.producers[t].ticket == s.producers[u].ticket ==> t == u
  }

  ghost predicate Held(s: State, k: nat) {
    exists t :: t in s.producers && s.producers[t].ticket == k
  }

  /** Every ticket of the current lap finds its cell either waiting for it or
      holding what it was sent with. */
  ghost predicate CellOk(s: State, k: nat)
    requires WellSized(s)
  {
    && (s.turn[Cell(Cap(s), k)] == k || s.turn[Cell(Cap(s), k)] == k + 1)
    && (s.turn[Cell(Cap(s), k)] == k + 1 ==> k < s.tail && (Untouched(s, k) ==> k < |s.sent| && s.cells[Cell(Cap(s), k)] == s.sent[k]))
    && (s.turn[Cell(Cap(s), k)] == k && k < s.tail ==> Held(s, k))
  }

  /** The consumer has not cleared the cell of ticket `k`. */
  predicate Untouched(s: State, k: nat) {
    !((s.consumer.Freeing? || s.consumer.Releasing?) && s.consumer.h == k)
  }

  predicate ConsumerOk(s: State)
    requires WellSized(s)
  {
    var c := s.consumer;
    && s.tail == |s.sent| && At(s) <= s.tail
    && (c.Loading? || c.Clearing? || c.Freeing? || c.Releasing? ==> s.turn[Cell(Cap(s), c.h)] == c.h + 1 && c.h < s.tail)
    && (c.Clearing? || c.Freeing? ==> c.item == s.sent[c.h])
    && s.freed == s.sent[..if c.Releasing? then c.h + 1 else At(s)]
  }

  ghost predicate Inv(s: State) {
    && WellSized(s) && ConsumerOk(s) && OneHolder(s)
    && (forall t :: t in s.producers ==> ProducerOk(s, t))
    && (forall k {:trigger CellOk(s, k)} :: At(s) <= k < At(s) + Cap(s) ==> CellOk(s, k))
    && (forall k {:trigger Held(s, k)} :: At(s) + Cap(s) <= k < s.tail ==> Held(s, k))
  }

  /** A producer more than a lap ahead of the consumer finds its cell two or
      more tickets behind: the capacity must be at least two. */
  lemma LapAheadBlocks(s: State, k: nat)
    requires Inv(s) && Cap(s) >= 2 && k >= At(s) + Cap(s)
    ensures s.turn[Cell(Cap(s), k)] < k
  {
    var d := (k - At(s)) / Cap(s);
    var j := At(s) + (k - At(s)) % Cap(s);
    assert k == j + d * Cap(s);
    SameCell(Cap(s), j, d);
    Laps(d, Cap(s));
    assert CellOk(s, j);
  }

  // Every step keeps the invariant.

  lemma InitInv(cap: nat)
    requires cap > 0
    ensures Inv(Init(cap))
  {
    var s := Init(cap);
    forall k | 0 <= k < cap ensures CellOk(s, k) {
      assert k / cap == 0;
    }
  }

  lemma TakeKeeps(s: State, t: Tid, item: Item)
    requires Inv(s) && Cap(s) >= 2 && Enabled(s, Take(t, item))
    ensures Inv(Apply(s, Take(t, item)))
  {
    var s' := Apply(s, Take(t, item));
    hide Cell, CellOk, Held, ProducerOk;
    forall k: nat | k < s'.tail && (k == s.tail || Held(s, k)) ensures Held(s', k) { HeldAfterTake(s, t, item, k); }
    forall k | At(s) <= k < At(s) + Cap(s) ensures CellOk(s', k) { TakeCell(s, t, item, k); }
    forall u | u in s'.producers ensures ProducerOk(s', u) { TakeProducer(s, t, item, u); }
    TicketsBelowTail(s);
  }

  lemma TicketsBelowTail(s: State)
    requires Inv(s)
    ensures forall u :: u in s.producers ==> s.producers[u].ticket < s.tail
  {
    hide Cell, CellOk, Held;
    forall u | u in s.producers ensures s.producers[u].ticket < s.tail { assert ProducerOk(s, u); }
  }

  lemma TakeCell(s: State, t: Tid, item: Item, k: nat)
    requires Inv(s) && Enabled(s, Take(t, item)) && At(s) <= k < At(s) + Cap(s)
    ensures CellOk(Apply(s, Take(t, item)), k)
  {
    hide Cell, Held, OneHolder;
    assert CellOk(s, k);
    if k == s.tail || Held(s, k) { HeldAfterTake(s, t, item, k); }
  }

  lemma TakeProducer(s: State, t: Tid, item: Item, u: Tid)
    requires Inv(s) && Enabled(s, Take(t, item)) && (u == t || u in s.producers)
    ensures ProducerOk(Apply(s, Take(t, item)), u)
  {
    hide Cell, Held, OneHolder;
    if u != t {
      assert ProducerOk(s, u);
    } else if s.tail < At(s) + Cap(s) {
      assert CellOk(s, s.tail);
    }
  }

  lemma HeldAfterTake(s: State, t: Tid, item: Item, k: nat)
    requires Enabled(s, Take(t, item)) && (k == s.tail || Held(s, k))
    ensures Held(Apply(s, Take(t, item)), k)
  {
    var s' := Apply(s, Take(t, item));
    if k == s.tail {
      assert s'.producers[t].ticket == k;
    } else {
      var u :| u in s.producers && s.producers[u].ticket == k;
      assert s'.producers[u].ticket == k;
    }
  }

  /** The producers' phases change, their tickets do not. */
  lemma HeldBySame(s: State, s': State, k: nat)
    requires s'.producers.Keys == s.producers.Keys && Held(s, k)
    requires forall t :: t in s.producers ==> s'.producers[t].ticket == s.producers[t].ticket
    ensures Held(s', k)
  {
    var u :| u in s.producers && s.producers[u].ticket == k;
    assert s'.producers[u].ticket == k;
  }

  lemma EnterKeeps(s: State, t: Tid)
    requires Inv(s) && Cap(s) >= 2 && Enabled(s, Enter(t))
    ensures Inv(Apply(s, Enter(t)))
  {
    var s' := Apply(s, Enter(t));
    hide Cell, CellOk, Held, ProducerOk;
    forall k | Held(s, k) ensures Held(s', k) { HeldBySame(s, s', k); }
    forall k | At(s) <= k < At(s) + Cap(s) ensures CellOk(s', k) { EnterCell(s, t, k); }
    forall u | u in s'.producers ensures ProducerOk(s', u) { EnterProducer(s, t, u); }
  }

  lemma EnterCell(s: State, t: Tid, k: nat)
    requires Inv(s) && Enabled(s, Enter(t)) && At(s) <= k < At(s) + Cap(s)
    ensures CellOk(Apply(s, Enter(t)), k)
  {
    hide Cell, Held, OneHolder;
    assert CellOk(s, k);
    if Held(s, k) { HeldBySame(s, Apply(s, Enter(t)), k); }
  }

  lemma EnterProducer(s: State, t: Tid, u: Tid)
    requires Inv(s) && Cap(s) >= 2 && Enabled(s, Enter(t)) && u in s.producers
    ensures ProducerOk(Apply(s, Enter(t)), u)
  {
    hide Cell, Held, OneHolder;
    if s.producers[t].ticket >= At(s) + Cap(s) { LapAheadBlocks(s, s.producers[t].ticket); }
    assert ProducerOk(s, u);
  }

  lemma WriteKeeps(s: State, t: Tid)
    requires Inv(s) && Enabled(s, Write(t))
    ensures Inv(Apply(s, Write(t)))
  {
    var s' := Apply(s, Write(t));
    hide Cell, CellOk, Held, ProducerOk;
    WrittenIsMine(s, t);
    forall k | Held(s, k) ensures Held(s', k) { HeldBySame(s, s', k); }
    forall k | At(s) <= k < At(s) + Cap(s) ensures CellOk(s', k) { WriteCell(s, t, k); }
    forall u | u in s'.producers ensures ProducerOk(s', u) { WriteProducer(s, t, u); }
  }

  /** A producer that is past its wait has a ticket of the current lap, and its
      cell shows it. */
  lemma WrittenIsMine(s: State, t: Tid)
    requires Inv(s) && t in s.producers && !s.producers[t].Waiting?
    ensures At(s) <= s.producers[t].ticket < At(s) + Cap(s) && s.turn[Cell(Cap(s), s.producers[t].ticket)] == s.producers[t].ticket
  {
    hide Cell, CellOk, Held;
    assert ProducerOk(s, t);
  }

  lemma WriteCell(s: State, t: Tid, k: nat)
    requires Inv(s) && Enabled(s, Write(t)) && At(s) <= k < At(s) + Cap(s)
    ensures CellOk(Apply(s, Write(t)), k)
  {
    hide Cell, Inv, OneHolder, ConsumerOk;
    WrittenIsMine(s, t);
    LapApart(Cap(s), At(s));
    assert CellOk(s, k) by { CellOf(s, k); }
    if Held(s, k) { HeldBySame(s, Apply(s, Write(t)), k); }
  }

  lemma CellOf(s: State, k: nat)
    requires Inv(s) && At(s) <= k < At(s) + Cap(s)
    ensures CellOk(s, k)
  {
    hide CellOk;
  }

  lemma WriteProducer(s: State, t: Tid, u: Tid)
    requires Inv(s) && Enabled(s, Write(t)) && u in s.producers
    ensures ProducerOk(Apply(s, Write(t)), u)
  {
    hide Cell, CellOk, Held, ConsumerOk;
    WrittenIsMine(s, t);
    LapApart(Cap(s), At(s));
    assert ProducerOk(s, u);
  }

  lemma PublishKeeps(s: State, t: Tid)
    requires Inv(s) && Enabled(s, Publish(t))
    ensures Inv(Apply(s, Publish(t)))
  {
    var s' := Apply(s, Publish(t));
    hide Cell, CellOk, Held, ProducerOk;
    WrittenIsMine(s, t);
    forall k | Held(s, k) && k != s.producers[t].ticket ensures Held(s', k) { HeldByOther(s, t, k); }
    forall k | At(s) <= k < At(s) + Cap(s) ensures CellOk(s', k) { PublishCell(s, t, k); }
    forall u | u in s'.producers ensures ProducerOk(s', u) { PublishProducer(s, t, u); }
    PublishSparesConsumer(s, t);
  }

  lemma HeldByOther(s: State, t: Tid, k: nat)
    requires Enabled(s, Publish(t)) && Held(s, k) && k != s.producers[t].ticket
    ensures Held(Apply(s, Publish(t)), k)
  {
    var u :| u in s.producers && s.producers[u].ticket == k;
    var s' := Apply(s, Publish(t));
    assert u in s'.producers && s'.producers[u].ticket == k;
  }

  lemma PublishSparesConsumer(s: State, t: Tid)
    requires Inv(s) && Enabled(s, Publish(t))
    ensures ConsumerOk(Apply(s, Publish(t)))
  {
    hide Cell, CellOk, Held, OneHolder;
    WrittenIsMine(s, t);
    LapApart(Cap(s), At(s));
  }

  lemma PublishCell(s: State, t: Tid, k: nat)
    requires Inv(s) && Enabled(s, Publish(t)) && At(s) <= k < At(s) + Cap(s)
    ensures CellOk(Apply(s, Publish(t)), k)
  {
    hide Cell, OneHolder, ConsumerOk;
    WrittenIsMine(s, t);
    LapApart(Cap(s), At(s));
    assert ProducerOk(s, t) && CellOk(s, k);
    if Held(s, k) && k != s.producers[t].ticket { HeldByOther(s, t, k); }
  }

  lemma PublishProducer(s: State, t: Tid, u: Tid)
    requires Inv(s) && Enabled(s, Publish(t)) && u in s.producers && u != t
    ensures ProducerOk(Apply(s, Publish(t)), u)
  {
    hide Cell, CellOk, Held, ConsumerOk;
    WrittenIsMine(s, t);
    LapApart(Cap(s), At(s));
    assert ProducerOk(s, u);
  }

  /** A consumer step that neither hands a cell on nor moves. */
  lemma ConsumeStillKeeps(s: State)
    requires Inv(s) && !s.consumer.Releasing?
    ensures Inv(ConsumerStep(s))
  {
    var s' := ConsumerStep(s);
    hide Cell, CellOk, Held, ProducerOk;
    ConsumeStillConsumer(s);
    forall k | Held(s, k) ensures Held(s', k) { HeldBySame(s, s', k); }
    forall k | At(s) <= k < At(s) + Cap(s) ensures CellOk(s', k) { ConsumeStillCell(s, k); }
    forall u | u in s'.producers ensures ProducerOk(s', u) { ConsumeStillProducer(s, u); }
  }

  lemma ConsumeStillConsumer(s: State)
    requires Inv(s) && !s.consumer.Releasing?
    ensures ConsumerOk(ConsumerStep(s)) && At(ConsumerStep(s)) == At(s) && ConsumerStep(s).tail == s.tail
  {
    hide Cell, Held, OneHolder;
    assert CellOk(s, At(s));
  }

  lemma ConsumeStillCell(s: State, k: nat)
    requires Inv(s) && !s.consumer.Releasing? && At(s) <= k < At(s) + Cap(s)
    ensures CellOk(ConsumerStep(s), k)
  {
    hide Cell, OneHolder;
    LapApart(Cap(s), At(s));
    assert CellOk(s, k);
    if Held(s, k) { HeldBySame(s, ConsumerStep(s), k); }
  }

  lemma ConsumeStillProducer(s: State, u: Tid)
    requires Inv(s) && !s.consumer.Releasing? && u in s.producers
    ensures ProducerOk(ConsumerStep(s), u)
  {
    hide Cell, CellOk, Held, OneHolder;
    LapApart(Cap(s), At(s));
    assert ProducerOk(s, u);
  }

  lemma ReleaseKeeps(s: State)
    requires Inv(s) && s.consumer.Releasing?
    ensures Inv(ConsumerStep(s))
  {
    var s' := ConsumerStep(s);
    var h := s.consumer.h;
    hide Cell;
    LapApart(Cap(s), h);
    NextLap(Cap(s), h);
    forall k | Held(s, k) ensures Held(s', k) { HeldBySame(s, s', k); }
    forall k | h + 1 <= k < h + 1 + Cap(s) ensures CellOk(s', k) {
      if k < h + Cap(s) { assert CellOk(s, k); }
    }
    forall u | u in s'.producers ensures ProducerOk(s', u) { assert ProducerOk(s, u); }
  }

  lemma StepInv(s: State, e: Event)
    requires Inv(s) && Cap(s) >= 2 && Enabled(s, e)
    ensures Inv(Apply(s, e)) && Cap(Apply(s, e)) == Cap(s)
  {
    match e
    case Take(t, item) => TakeKeeps(s, t, item);
    case Enter(t) => EnterKeeps(s, t);
    case Write(t) => WriteKeeps(s, t);
    case Publish(t) => PublishKeeps(s, t);
    case Consume =>
      if s.consumer.Releasing? { ReleaseKeeps(s); } else { ConsumeStillKeeps(s); }
  }

  // Whole runs.

  predicate CanRun(s: State, es: seq<Event>)
    decreases |es|, 0
  {
    es == [] || (CanRun(s, es[..|es| - 1]) && Enabled(Run(s, es[..|es| - 1]), es[|es| - 1]))
  }

  function Run(s: State, es: seq<Event>): State
    requires CanRun(s, es)
    decreases |es|, 1
  {
    if es == [] then s else Apply(Run(s, es[..|es| - 1]), es[|es| - 1])
  }

  /** The items pushed, in the order the producers took their tickets. */
  function Pushed(es: seq<Event>): seq<Item> {
    if es == [] then [] else Pushed(es[..|es| - 1]) + (if es[|es| - 1].Take? then [es[|es| - 1].item] else [])
  }

  lemma {:induction false} RunInv(cap: nat, es: seq<Event>)
    requires cap >= 2 && CanRun(Init(cap), es)
    ensures Inv(Run(Init(cap), es)) && Cap(Run(Init(cap), es)) == cap
    decreases |es|
  {
    if es == [] {
      InitInv(cap);
    } else {
      RunInv(cap, es[..|es| - 1]);
      StepInv(Run(Init(cap), es[..|es| - 1]), es[|es| - 1]);
    }
  }

  lemma {:induction false} SentIsPushed(s: State, es: seq<Event>)
    requires CanRun(s, es)
    ensures Run(s, es).sent == s.sent + Pushed(es)
    decreases |es|
  {
    if es != [] {
      SentIsPushed(s, es[..|es| - 1]);
    }
  }

  /** Whatever has been delivered is what was pushed first: every ticket once,
      in ticket order, with the item it was taken for. */
  predicate Fifo(cap: nat, es: seq<Event>)
    requires CanRun(Init(cap), es)
  {
    var freed := Run(Init(cap), es).freed;
    |freed| <= |Pushed(es)| && freed == Pushed(es)[..|freed|]
  }

  lemma InboxIsFifo(cap: nat, es: seq<Event>)
    requires cap >= 2 && CanRun(Init(cap), es)
    ensures Fifo(cap, es)
  {
    hide Inv;
    RunInv(cap, es);
    SentIsPushed(Init(cap), es);
    FreedIsSent(Run(Init(cap), es));
  }

  lemma FreedIsSent(s: State)
    requires Inv(s)
    ensures |s.freed| <= |s.sent| && s.freed == s.sent[..|s.freed|]
  {
    hide CellOk, ProducerOk, OneHolder, Held;
  }

  /** A waiting producer gets past its wait exactly when its ticket is within a
      lap of the consumer. */
  lemma WaitEndsIff(cap: nat, es: seq<Event>, t: Tid)
    requires cap >= 2 && CanRun(Init(cap), es)
    requires t in Run(Init(cap), es).producers && Run(Init(cap), es).producers[t].Waiting?
    ensures var s := Run(Init(cap), es); Enabled(s, Enter(t)) <==> s.producers[t].ticket < At(s) + cap
  {
    var s := Run(Init(cap), es);
    RunInv(cap, es);
    assert ProducerOk(s, t);
    if s.producers[t].ticket >= At(s) + cap {
      LapAheadBlocks(s, s.producers[t].ticket);
    }
  }

  /** The consumer would find its next cell ready. */
  predicate Deliverable(s: State) {
    WellSized(s) && s.turn[Cell(Cap(s), At(s))] == At(s) + 1
  }

  /** While something is undelivered, either its cell is ready for the consumer
      or the producer that holds its ticket can take its next step. */
  lemma OldestTicketMoves(cap: nat, es: seq<Event>)
    requires cap >= 2 && CanRun(Init(cap), es) && At(Run(Init(cap), es)) < Run(Init(cap), es).tail
    ensures var s := Run(Init(cap), es);
      || Deliverable(s)
      || exists t :: t in s.producers && s.producers[t].ticket == At(s) && (Enabled(s, Enter(t)) || Enabled(s, Write(t)) || Enabled(s, Publish(t)))
  {
    var s := Run(Init(cap), es);
    RunInv(cap, es);
    assert CellOk(s, At(s));
    if s.turn[Cell(cap, At(s))] == At(s) {
      var t :| t in s.producers && s.producers[t].ticket == At(s);
      assert Enabled(s, Enter(t)) || Enabled(s, Write(t)) || Enabled(s, Publish(t));
    }
  }

  /** Once every push has returned, a drain that finds its next cell not ready
      has delivered everything. */
  lemma DrainIsComplete(cap: nat, es: seq<Event>)
    requires cap >= 2 && CanRun(Init(cap), es) && Run(Init(cap), es).producers == map[]
    requires Run(Init(cap), es).consumer.Testing? && !Deliverable(Run(Init(cap), es))
    ensures Run(Init(cap), es).freed == Pushed(es)
  {
    var s := Run(Init(cap), es);
    RunInv(cap, es);
    SentIsPushed(Init(cap), es);
    assert CellOk(s, At(s));
  }

  // With one cell the next ticket's turn looks like the last one's delivery.

  predicate Leads(es: seq<Event>, s: State) {
    CanRun(Init(1), es) && Run(Init(1), es) == s
  }

  lemma Then(es: seq<Event>, s: State, e: Event, s': State) returns (longer: seq<Event>)
    requires Leads(es, s) && Enabled(s, e) && Apply(s, e) == s'
    ensures Leads(longer, s')
  {
    longer := es + [e];
    assert longer[..|es|] == es;
  }

  lemma Begun() returns (es: seq<Event>)
    ensures Leads(es, Init(1))
  {
    es := [];
  }

  /** The state with one cell; the producers are 0 and 1. */
  function OneCell(tail: nat, turn: nat, cell: Item, producers: map<Tid, Producer>, consumer: Consumer, sent: seq<Item>, freed: seq<Item>): State {
    State(0, tail, [turn], [cell], producers, consumer, sent, freed)
  }

  lemma FirstPush() returns (es: seq<Event>)
    ensures Leads(es, OneCell(1, 1, 7, map[], Outside, [7], []))
  {
    hide Leads;
    es := Begun();
    assert Init(1) == OneCell(0, 0, 0, map[], Outside, [], []);
    var s1, s2, s3 := OneCell(1, 0, 0, map[0 := Waiting(0, 7)], Outside, [7], []),
                      OneCell(1, 0, 0, map[0 := Writing(0, 7)], Outside, [7], []),
                      OneCell(1, 0, 7, map[0 := Publishing(0, 7)], Outside, [7], []);
    es := Then(es, Init(1), Take(0, 7), s1);
    es := Then(es, s1, Enter(0), s2);
    es := Then(es, s2, Write(0), s3);
    assert s3.producers - {0} == map[];
    es := Then(es, s3, Publish(0), OneCell(1, 1, 7, map[], Outside, [7], []));
  }

  /** The next ticket is 1, and 1 is what the cell shows. */
  lemma SecondPush(es: seq<Event>) returns (longer: seq<Event>)
    requires Leads(es, OneCell(1, 1, 7, map[], Outside, [7], []))
    ensures Leads(longer, OneCell(2, 1, 8, map[1 := Publishing(1, 8)], Outside, [7, 8], []))
  {
    hide Leads;
    var s1, s2 := OneCell(2, 1, 7, map[1 := Waiting(1, 8)], Outside, [7, 8], []),
                  OneCell(2, 1, 7, map[1 := Writing(1, 8)], Outside, [7, 8], []);
    longer := Then(es, OneCell(1, 1, 7, map[], Outside, [7], []), Take(1, 8), s1);
    longer := Then(longer, s1, Enter(1), s2);
    longer := Then(longer, s2, Write(1), OneCell(2, 1, 8, map[1 := Publishing(1, 8)], Outside, [7, 8], []));
  }

  lemma DrainsSecond(es: seq<Event>) returns (longer: seq<Event>)
    requires Leads(es, OneCell(2, 1, 8, map[1 := Publishing(1, 8)], Outside, [7, 8], []))
    ensures Leads(longer, OneCell(2, 1, 0, map[1 := Publishing(1, 8)], Releasing(0), [7, 8], [8]))
  {
    hide Leads;
    var p := map[1 := Publishing(1, 8)];
    longer := Then(es, OneCell(2, 1, 8, p, Outside, [7, 8], []), Consume, OneCell(2, 1, 8, p, Testing(0), [7, 8], []));
    longer := Then(longer, OneCell(2, 1, 8, p, Testing(0), [7, 8], []), Consume, OneCell(2, 1, 8, p, Loading(0), [7, 8], []));
    longer := Then(longer, OneCell(2, 1, 8, p, Loading(0), [7, 8], []), Consume, OneCell(2, 1, 8, p, Clearing(0, 8), [7, 8], []));
    longer := Then(longer, OneCell(2, 1, 8, p, Clearing(0, 8), [7, 8], []), Consume, OneCell(2, 1, 0, p, Freeing(0, 8), [7, 8], []));
    longer := Then(longer, OneCell(2, 1, 0, p, Freeing(0, 8), [7, 8], []), Consume, OneCell(2, 1, 0, p, Releasing(0), [7, 8], [8]));
  }

  /** The second push overwrites the first item before it is delivered. */
  lemma OneCellOverwrites() returns (es: seq<Event>)
    ensures CanRun(Init(1), es) && Run(Init(1), es).freed == [8] && Pushed(es) == [7, 8]
    ensures !Fifo(1, es)
  {
    hide CanRun, Run;
    es := FirstPush();
    es := SecondPush(es);
    es := DrainsSecond(es);
    SentIsPushed(Init(1), es);
    assert Init(1).sent + Pushed(es) == Pushed(es);
    assert [7, 8][..1][0] == 7;
  }

  /** The inbox is a FIFO on every run if and only if it has at least two cells. */
  lemma FifoIff(cap: nat)
    requires cap > 0
    ensures (forall es :: CanRun(Init(cap), es) ==> Fifo(cap, es)) <==> cap >= 2
  {
    if cap >= 2 {
      forall es | CanRun(Init(cap), es) ensures Fifo(cap, es) { InboxIsFifo(cap, es); }
    } else {
      var es := OneCellOverwrites();
    }
  }

  // Sizing.

  const MIN_OPTION: nat := 1024

  /** The capacity option of the bench: unset, or at least 1024. */
  function CapOption(option: nat): nat {
    if option != 0 && option < MIN_OPTION then MIN_OPTION else option
  }

  /** The cells the bench asks for: its option, or room for every push. */
  function Requested(option: nat, iters: nat, threads: nat): nat {
    if CapOption(option) != 0 then CapOption(option) else iters * threads + 1
  }

  /** The smallest power of two that is at least `value`. */
  ghost predicate RoundedUp(value: nat, cap: nat) {
    exists k: nat :: cap == Pow2(k) && cap >= value && (k > 0 ==> Pow2(k - 1) < value)
  }

  /** A worker of the bench can push: it has iterations, and somebody to send to. */
  predicate CanPush(iters: nat, threads: nat) {
    iters > 0 && threads > 1
  }

  /** Wherever a worker can push, the inbox it pushes to has at least two cells. */
  lemma BenchHasTwoCells(option: nat, iters: nat, threads: nat, cap: nat)
    requires CanPush(iters, threads) && RoundedUp(Requested(option, iters, threads), cap)
    ensures cap >= 2
  {
    assert iters * threads >= threads;
  }

  /** How many cells that is: 1024 for an option of at most that, less than twice
      a larger option and at least it, and without one more cells than pushes. */
  lemma BenchCapacity(option: nat, iters: nat, threads: nat, cap: nat)
    requires RoundedUp(Requested(option, iters, threads), cap)
    ensures 0 < option <= 1024 ==> cap == 1024
    ensures option > 1024 ==> option <= cap < 2 * option
    ensures option == 0 ==> iters * threads < cap <= 2 * (iters * threads) + 1
  {
    var k: nat :| cap == Pow2(k) && cap >= Requested(option, iters, threads) && (k > 0 ==> Pow2(k - 1) < Requested(option, iters, threads));
    if k > 0 { Pow2Step(k); }
    if 0 < option <= 1024 {
      hide Pow2;
      Pow2Is1024();
      if k < 10 { Pow2Grows(k, 9); }
      if k > 10 { Pow2Grows(10, k - 1); }
    }
  }

  lemma Pow2Is1024()
    ensures Pow2(10) == 1024 && Pow2(9) == 512
  {
    assert Pow2(5) == 32;
    Pow2Adds(5, 5);
    Pow2Step(10);
  }

  /** The bench's inboxes are FIFOs on every run the bench can take, whatever its
      capacity option, iterations and threads: one cell is a limit of the sizing
      function alone. */
  lemma BenchInboxIsFifo(option: nat, iters: nat, threads: nat, cap: nat, es: seq<Event>)
    requires RoundedUp(Requested(option, iters, threads), cap) && CanRun(Init(cap), es)
    requires Pushed(es) != [] ==> CanPush(iters, threads)
    ensures Fifo(cap, es)
  {
    if Pushed(es) != [] {
      BenchHasTwoCells(option, iters, threads, cap);
      InboxIsFifo(cap, es);
    } else {
      NothingPushed(cap, es);
    }
  }

  lemma {:induction false} NothingPushed(cap: nat, es: seq<Event>)
    requires cap > 0 && CanRun(Init(cap), es) && Pushed(es) == []
    ensures var s := Run(Init(cap), es);
      && s.turn == Init(cap).turn && s.producers == map[] && s.head == 0 && s.freed == [] && |s.cells| == cap
      && (s.consumer.Outside? || s.consumer == Testing(0) || s.consumer == Leaving(0))
    decreases |es|
  {
    if es != [] {
      NothingPushed(cap, es[..|es| - 1]);
    }
  }

  const SIZE: nat := 0x1_0000_0000_0000_0000

  /** Doubles until it is enough, in 64 bits. */
  method NextPowerOfTwo(value: nat) returns (result: nat, ghost k: nat)
    requires value <= SIZE / 2
    ensures result == Pow2(k) && result >= value && RoundedUp(value, result)
    ensures k > 0 ==> Pow2(k - 1) < value
    ensures result >= 2 <==> value >= 2
  {
    result, k := 1, 0;
    while result < value
      invariant result == Pow2(k) && (k > 0 ==> Pow2(k - 1) < value)
    {
      result := result * 2 % SIZE;
      k := k + 1;
    }
  }

  /** What the shifted word is after `k` doublings. */
  function Shifted(k: nat): nat {
    if k == 0 then 1 else Shifted(k - 1) * 2 % SIZE
  }

  /** The doubling can end exactly for values up to 2^63: the word shows every
      power of two below 2^64, and nothing but 0 after. */
  lemma RoundsUpIff(value: nat)
    ensures (exists k :: Shifted(k) >= value) <==> value <= SIZE / 2
  {
    Pow63();
    if value <= SIZE / 2 {
      ShiftedIs(63);
      assert Shifted(63) >= value;
    } else {
      forall k ensures Shifted(k) < value { ShiftedAtMost(k); }
    }
  }

  lemma ShiftedAtMost(k: nat)
    ensures Shifted(k) <= SIZE / 2
  {
    hide Shifted, Pow2;
    Pow63();
    ShiftedIs(k);
    if k < 64 { Pow2Grows(k, 63); }
  }

  lemma {:induction false} ShiftedIs(k: nat)
    ensures Shifted(k) == if k < 64 then Pow2(k) else 0
  {
    hide Pow2, Shifted;
    ShiftedStep(k);
    if k == 0 {
      Pow2Base();
    } else {
      ShiftedIs(k - 1);
      Pow2Step(k);
      Pow63();
      if k <= 64 { Pow2Grows(k - 1, 63); }
      Doubled(Shifted(k - 1));
      if k < 64 { Pow2Grows(k, 63); }
    }
  }

  lemma ShiftedStep(k: nat)
    ensures Shifted(k) == if k == 0 then 1 else Shifted(k - 1) * 2 % SIZE
  {}

  lemma Doubled(x: nat)
    requires x <= SIZE / 2
    ensures x * 2 % SIZE == if x < SIZE / 2 then x * 2 else 0
  {}

  lemma Pow2Step(k: nat)
    requires k > 0
    ensures Pow2(k) == 2 * Pow2(k - 1)
  {}

  lemma Pow2Base()
    ensures Pow2(0) == 1
  {}

  lemma {:induction false} Pow2Grows(j: nat, k: nat)
    requires j <= k
    ensures Pow2(j) <= Pow2(k)
    decreases k - j
  {
    hide Pow2;
    if j < k {
      Pow2Grows(j + 1, k);
      Pow2Step(j + 1);
    }
  }

  lemma Pow63()
    ensures Pow2(63) == SIZE / 2
  {
    hide Pow2;
    Pow2Base();
    Pow2Step(1);
    Pow2Adds(1, 1);
    Pow2Adds(2, 1);
    Pow2Adds(3, 3);
    Pow2Adds(6, 1);
    Pow2Adds(7, 7);
    Pow2Adds(14, 1);
    Pow2Adds(15, 15);
    Pow2Adds(30, 1);
    Pow2Adds(31, 31);
    Pow2Adds(62, 1);
  }

  lemma {:induction false} Pow2Adds(j: nat, k: nat)
    ensures Pow2(j + k) == Pow2(j) * Pow2(k)
  {
    hide Pow2;
    if k == 0 {
      Pow2Base();
    } else {
      Pow2Adds(j, k - 1);
      Pow2Step(k);
      Pow2Step(j + k);
      assert Pow2(j + k) == 2 * (Pow2(j) * Pow2(k - 1));
    }
  }
}
