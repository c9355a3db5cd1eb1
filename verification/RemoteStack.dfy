/** Remote frees at the level of memory words: a claim bit for each slot, one
    Treiber stack per stripe threaded through the slots themselves, and an owner
    that detaches a whole stripe with one exchange and walks it. Every atomic
    operation and every access to a link is a step; frees and the drain
    interleave in any way, and a slot can be claimed again as soon as its bit
    is clear. */
module RemoteStack {
  import opened Basics

  type Tid = nat

  /** A remote free that holds slot `slot`: it loads the stripe's head, stores
      it into the slot's link, and tries to swing the head to the slot. */
  datatype Free = Loading(slot: nat, stripe: nat) | Linking(slot: nat, stripe: nat, seen: nat) | Swinging(slot: nat, stripe: nat, seen: nat)

  /** The owner: not draining, about to exchange a stripe, at a node of the
      detached chain, or holding its saved link and about to clear its bit. */
  datatype Drain = Resting | Exchanging(stripe: nat) | Visiting(stripe: nat, head: nat) | Clearing(stripe: nat, head: nat, next: nat)

  /** Where a slot is: nowhere, in a remote free, on a stripe's stack, or in the
      chain the owner has detached. */
  datatype Place = Nowhere | With(tid: Tid) | On(stripe: nat) | Detached

  /** `bits`, `links` and `heads` are the shared words; the slot number |bits|
      stands for null. The last five fields only record the run, no step reads
      them: the slots that the links should spell out, where each slot is, and
      how often it has been claimed and drained. */
  datatype State = State(bits: seq<bool>, links: seq<nat>, heads: seq<nat>, frees: map<Tid, Free>, owner: Drain, merged: nat, failed: nat,
                         stacks: seq<seq<nat>>, detached: seq<nat>, place: seq<Place>, claims: seq<nat>, drains: seq<nat>)

  datatype Event = Claim(tid: Tid, slot: nat, stripe: nat) | Load(tid: Tid) | Link(tid: Tid) | Swing(tid: Tid, spurious: bool)
                 | Start | Exchange | Visit | Clear

  function Null(s: State): nat { |s.bits| }

  function Init(slots: nat, stripes: nat): State {
    State(seq(slots, i => false), seq(slots, i => slots), seq(stripes, i => slots), map[], Resting, 0, 0,
          seq(stripes, i => []), [], seq(slots, i => Nowhere), seq(slots, i => 0), seq(slots, i => 0))
  }

  predicate Sized(s: State) {
    |s.links| == |s.bits| == |s.place| == |s.claims| == |s.drains| && |s.stacks| == |s.heads|
  }

  predicate Enabled(s: State, e: Event) {
    Sized(s) &&
    match e
    case Claim(t, i, k) => t !in s.frees && i < |s.bits| && k < |s.heads|
    case Load(t) => t in s.frees && s.frees[t].Loading? && s.frees[t].stripe < |s.heads|
    case Link(t) => t in s.frees && s.frees[t].Linking? && s.frees[t].slot < |s.links|
    case Swing(t, spurious) => t in s.frees && s.frees[t].Swinging? && s.frees[t].stripe < |s.heads| && s.frees[t].slot < |s.bits|
    case Start => s.owner == Resting
    case Exchange => s.owner.Exchanging? && s.owner.stripe < |s.heads|
    case Visit => s.owner.Visiting? && (s.owner.head == Null(s) || s.owner.head < |s.links|)
    case Clear => s.owner.Clearing? && s.owner.head < |s.bits|
  }

  function Bump(xs: seq<nat>, i: nat): seq<nat>
    requires i < |xs|
  {
    xs[i := xs[i] + 1]
  }

  function Tail(xs: seq<nat>): seq<nat> { if xs == [] then [] else xs[1..] }

  function Moved(place: seq<Place>, k: nat): (r: seq<Place>)
    ensures |r| == |place|
  {
    seq(|place|, i requires 0 <= i < |place| => if place[i] == On(k) then Detached else place[i])
  }

  function AtStripe(s: State, k: nat): Drain { if k < |s.heads| then Exchanging(k) else Resting }

  function Apply(s: State, e: Event): State
    requires Enabled(s, e)
  {
    match e
    case Claim(t, i, k) =>
      if s.bits[i] then s.(failed := s.failed + 1)
      else s.(bits := s.bits[i := true], frees := s.frees[t := Loading(i, k)], place := s.place[i := With(t)], claims := Bump(s.claims, i))
    case Load(t) =>
      var f := s.frees[t];
      s.(frees := s.frees[t := Linking(f.slot, f.stripe, s.heads[f.stripe])])
    case Link(t) =>
      var f := s.frees[t];
      s.(links := s.links[f.slot := f.seen], frees := s.frees[t := Swinging(f.slot, f.stripe, f.seen)])
    case Swing(t, spurious) =>
      var f := s.frees[t];
      if s.heads[f.stripe] == f.seen && !spurious then
        s.(heads := s.heads[f.stripe := f.slot], frees := s.frees - {t}, place := s.place[f.slot := On(f.stripe)],
             stacks := s.stacks[f.stripe := [f.slot] + s.stacks[f.stripe]])
      else s.(frees := s.frees[t := Linking(f.slot, f.stripe, s.heads[f.stripe])])
    case Start => s.(owner := AtStripe(s, 0), merged := 0)
    case Exchange =>
      var k := s.owner.stripe;
      s.(owner := Visiting(k, s.heads[k]), heads := s.heads[k := Null(s)], stacks := s.stacks[k := []], detached := s.stacks[k],
         place := Moved(s.place, k))
    case Visit =>
      var k, h := s.owner.stripe, s.owner.head;
      if h == Null(s) then s.(owner := AtStripe(s, k + 1)) else s.(owner := Clearing(k, h, s.links[h]))
    case Clear =>
      var h := s.owner.head;
      s.(bits := s.bits[h := false], owner := Visiting(s.owner.stripe, s.owner.next), merged := s.merged + 1,
         detached := Tail(s.detached), place := s.place[h := Nowhere], drains := Bump(s.drains, h))
  }

  /** Starting at `head`, the links spell out `chain` and then null. */
  predicate Spells(s: State, head: nat, chain: seq<nat>)
    requires Sized(s)
    decreases |chain|
  {
    if chain == [] then head == Null(s) else head == chain[0] && head < |s.links| && Spells(s, s.links[head], chain[1..])
  }

  // What every interleaving keeps.

  predicate FreeOk(s: State, t: Tid)
    requires Sized(s) && t in s.frees
  {
    var f := s.frees[t];
    && f.slot < |s.bits| && f.stripe < |s.heads| && s.place[f.slot] == With(t)
    && (f.Swinging? ==> s.links[f.slot] == f.seen)
  }

  ghost predicate StackOk(s: State, k: nat)
    requires Sized(s) && k < |s.heads|
  {
    && NoDup(s.stacks[k]) && Spells(s, s.heads[k], s.stacks[k])
    && forall i :: i in s.stacks[k] ==> i < |s.bits| && s.place[i] == On(k)
  }

  predicate OwnerOk(s: State)
    requires Sized(s)
  {
    match s.owner
    case Visiting(k, h) => Spells(s, h, s.detached)
    case Clearing(k, h, n) => s.detached != [] && s.detached[0] == h && h < |s.bits| && Spells(s, n, s.detached[1..])
    case Exchanging(k) => k < |s.heads| && s.detached == []
    case Resting => s.detached == []
  }

  ghost predicate SlotOk(s: State, i: nat)
    requires Sized(s) && i < |s.bits|
  {
    && (s.bits[i] <==> s.place[i] != Nowhere)
    && s.claims[i] == s.drains[i] + (if s.bits[i] then 1 else 0)
    && (match s.place[i]
        case Nowhere => true
        case With(t) => t in s.frees && s.frees[t].slot == i
        case On(k) => k < |s.stacks| && i in s.stacks[k]
        case Detached => i in s.detached)
  }

  ghost predicate Inv(s: State) {
    && Sized(s) && OwnerOk(s) && NoDup(s.detached)
    && (forall i :: i in s.detached ==> i < |s.bits| && s.place[i] == Detached)
    && (forall t :: t in s.frees ==> FreeOk(s, t))
    && (forall k :: 0 <= k < |s.heads| ==> StackOk(s, k))
    && (forall i :: 0 <= i < |s.bits| ==> SlotOk(s, i))
  }

  /** Links outside the chain do not matter to it. */
  lemma {:induction false} SpellsFrame(s: State, s': State, head: nat, chain: seq<nat>)
    requires Sized(s) && Sized(s') && |s'.bits| == |s.bits| && Spells(s, head, chain)
    requires forall i :: i in chain && i < |s.links| ==> s'.links[i] == s.links[i]
    ensures Spells(s', head, chain)
    decreases |chain|
  {
    if chain != [] {
      assert forall i :: i in chain[1..] ==> i in chain;
      SpellsFrame(s, s', s.links[head], chain[1..]);
    }
  }

  lemma InitInv(slots: nat, stripes: nat)
    ensures Inv(Init(slots, stripes))
  {}

  lemma ClaimKeeps(s: State, t: Tid, i: nat, k: nat)
    requires Inv(s) && Enabled(s, Claim(t, i, k))
    ensures Inv(Apply(s, Claim(t, i, k)))
  {
    var s' := Apply(s, Claim(t, i, k));
    assert SlotOk(s, i);
    Reframe(s, s', Null(s));
    forall j | 0 <= j < |s'.bits| ensures SlotOk(s', j) { assert SlotOk(s, j); }
    forall u | u in s'.frees ensures FreeOk(s', u) { if u != t { assert FreeOk(s, u); } }
  }

  /** A step that changes no stack, no head and no link but that of `own`. */
  lemma Reframe(s: State, s': State, own: nat)
    requires Inv(s) && Sized(s') && |s'.bits| == |s.bits|
    requires s'.stacks == s.stacks && s'.heads == s.heads && s'.detached == s.detached && s'.owner == s.owner
    requires forall i :: 0 <= i < |s.bits| && i != own ==> s'.links[i] == s.links[i]
    requires own < |s.bits| ==> !s.place[own].On? && !s.place[own].Detached?
    requires forall i :: 0 <= i < |s.bits| && (s.place[i].On? || s.place[i].Detached?) ==> s'.place[i] == s.place[i]
    ensures forall k :: 0 <= k < |s.heads| ==> StackOk(s', k)
    ensures OwnerOk(s')
  {
    forall k | 0 <= k < |s.heads| ensures StackOk(s', k) {
      assert StackOk(s, k);
      SpellsFrame(s, s', s.heads[k], s.stacks[k]);
    }
    if s.owner.Visiting? {
      SpellsFrame(s, s', s.owner.head, s.detached);
    } else if s.owner.Clearing? {
      SpellsFrame(s, s', s.owner.next, s.detached[1..]);
    }
  }

  lemma LoadKeeps(s: State, t: Tid)
    requires Inv(s) && Enabled(s, Load(t))
    ensures Inv(Apply(s, Load(t)))
  {
    var s' := Apply(s, Load(t));
    Reframe(s, s', Null(s));
    forall j | 0 <= j < |s'.bits| ensures SlotOk(s', j) { assert SlotOk(s, j); }
    forall u | u in s'.frees ensures FreeOk(s', u) { assert FreeOk(s, u); }
  }

  lemma LinkKeeps(s: State, t: Tid)
    requires Inv(s) && Enabled(s, Link(t))
    ensures Inv(Apply(s, Link(t)))
  {
    var s' := Apply(s, Link(t));
    assert FreeOk(s, t);
    Reframe(s, s', s.frees[t].slot);
    forall j | 0 <= j < |s'.bits| ensures SlotOk(s', j) { assert SlotOk(s, j); }
    forall u | u in s'.frees ensures FreeOk(s', u) { assert FreeOk(s, u); }
  }

  lemma SwingKeeps(s: State, t: Tid, spurious: bool)
    requires Inv(s) && Enabled(s, Swing(t, spurious))
    ensures Inv(Apply(s, Swing(t, spurious)))
  {
    hide SlotOk, FreeOk, StackOk, OwnerOk;
    var s' := Apply(s, Swing(t, spurious));
    if s.heads[s.frees[t].stripe] == s.frees[t].seen && !spurious {
      forall k | 0 <= k < |s'.heads| ensures StackOk(s', k) { SwungStack(s, t, k); }
      SwungSparesDetached(s, t);
      OwnerFrame(s, s');
    } else {
      Reframe(s, s', Null(s));
    }
    forall j | 0 <= j < |s'.bits| ensures SlotOk(s', j) { SwungSlot(s, t, spurious, j); }
    forall u | u in s'.frees ensures FreeOk(s', u) { SwungFree(s, t, spurious, u); }
  }

  predicate Swings(s: State, t: Tid) {
    Enabled(s, Swing(t, false)) && s.heads[s.frees[t].stripe] == s.frees[t].seen
  }

  lemma SwungStack(s: State, t: Tid, k: nat)
    requires Inv(s) && Swings(s, t) && k < |s.heads|
    ensures StackOk(Apply(s, Swing(t, false)), k)
  {
    hide SlotOk, OwnerOk;
    var s' := Apply(s, Swing(t, false));
    assert FreeOk(s, t) && StackOk(s, k);
    SpellsFrame(s, s', s.heads[k], s.stacks[k]);
    if k == s.frees[t].stripe { assert s'.stacks[k][1..] == s.stacks[k]; }
  }

  lemma SwungSparesDetached(s: State, t: Tid)
    requires Inv(s) && Swings(s, t)
    ensures var s' := Apply(s, Swing(t, false)); forall i :: i in s.detached ==> s'.place[i] == Detached
  {
    hide SlotOk, OwnerOk, StackOk;
    assert FreeOk(s, t);
  }

  lemma SwungSlot(s: State, t: Tid, spurious: bool, j: nat)
    requires Inv(s) && Enabled(s, Swing(t, spurious)) && j < |s.bits|
    ensures SlotOk(Apply(s, Swing(t, spurious)), j)
  {
    hide StackOk, OwnerOk;
    assert FreeOk(s, t) && SlotOk(s, j);
  }

  lemma SwungFree(s: State, t: Tid, spurious: bool, u: Tid)
    requires Inv(s) && Enabled(s, Swing(t, spurious)) && u in Apply(s, Swing(t, spurious)).frees
    ensures FreeOk(Apply(s, Swing(t, spurious)), u)
  {
    hide StackOk, OwnerOk, SlotOk;
    assert FreeOk(s, t) && FreeOk(s, u);
  }

  lemma OwnerFrame(s: State, s': State)
    requires Inv(s) && Sized(s') && s'.links == s.links && |s'.bits| == |s.bits| && |s'.heads| == |s.heads| && s'.owner == s.owner && s'.detached == s.detached
    ensures OwnerOk(s')
  {
    if s.owner.Visiting? {
      SpellsFrame(s, s', s.owner.head, s.detached);
    } else if s.owner.Clearing? {
      SpellsFrame(s, s', s.owner.next, s.detached[1..]);
    }
  }

  lemma ExchangeKeeps(s: State)
    requires Inv(s) && Enabled(s, Exchange)
    ensures Inv(Apply(s, Exchange))
  {
    var s' := Apply(s, Exchange);
    var k := s.owner.stripe;
    assert StackOk(s, k);
    SpellsFrame(s, s', s.heads[k], s.stacks[k]);
    forall j | 0 <= j < |s'.heads| ensures StackOk(s', j) {
      assert StackOk(s, j);
      SpellsFrame(s, s', s.heads[j], s.stacks[j]);
    }
    forall j | 0 <= j < |s'.bits| ensures SlotOk(s', j) { assert SlotOk(s, j); }
    forall u | u in s'.frees ensures FreeOk(s', u) { assert FreeOk(s, u); }
  }

  lemma VisitKeeps(s: State)
    requires Inv(s) && Enabled(s, Visit)
    ensures Inv(Apply(s, Visit))
  {
    var s' := Apply(s, Visit);
    forall j | 0 <= j < |s'.heads| ensures StackOk(s', j) {
      assert StackOk(s, j);
      SpellsFrame(s, s', s.heads[j], s.stacks[j]);
    }
    if s.owner.head != Null(s) { SpellsFrame(s, s', s.links[s.owner.head], s.detached[1..]); }
    forall j | 0 <= j < |s'.bits| ensures SlotOk(s', j) { assert SlotOk(s, j); }
    forall u | u in s'.frees ensures FreeOk(s', u) { assert FreeOk(s, u); }
  }

  /** The bit goes down, and from here on another free may take the slot and
      overwrite its link; the owner goes on with the link it saved. */
  lemma ClearKeeps(s: State)
    requires Inv(s) && Enabled(s, Clear)
    ensures Inv(Apply(s, Clear))
  {
    var s' := Apply(s, Clear);
    forall j | 0 <= j < |s'.heads| ensures StackOk(s', j) {
      assert StackOk(s, j);
      SpellsFrame(s, s', s.heads[j], s.stacks[j]);
    }
    SpellsFrame(s, s', s.owner.next, s.detached[1..]);
    assert s.detached == [s.owner.head] + s'.detached;
    forall i | i in s'.detached ensures i in s.detached && i != s.owner.head {
      var j :| 0 <= j < |s'.detached| && s'.detached[j] == i;
      assert s.detached[j + 1] == i;
    }
    forall j | 0 <= j < |s'.bits| ensures SlotOk(s', j) { assert SlotOk(s, j); }
    forall u | u in s'.frees ensures FreeOk(s', u) { assert FreeOk(s, u); }
  }

  lemma StepInv(s: State, e: Event)
    requires Inv(s) && Enabled(s, e)
    ensures Inv(Apply(s, e))
  {
    match e
    case Claim(t, i, k) => ClaimKeeps(s, t, i, k);
    case Load(t) => LoadKeeps(s, t);
    case Link(t) => LinkKeeps(s, t);
    case Swing(t, spurious) => SwingKeeps(s, t, spurious);
    case Start => StartKeeps(s);
    case Exchange => ExchangeKeeps(s);
    case Visit => VisitKeeps(s);
    case Clear => ClearKeeps(s);
  }

  lemma StartKeeps(s: State)
    requires Inv(s) && Enabled(s, Start)
    ensures Inv(Apply(s, Start))
  {
    var s' := Apply(s, Start);
    forall j | 0 <= j < |s'.heads| ensures StackOk(s', j) {
      assert StackOk(s, j);
      SpellsFrame(s, s', s.heads[j], s.stacks[j]);
    }
    forall j | 0 <= j < |s'.bits| ensures SlotOk(s', j) { assert SlotOk(s, j); }
    forall u | u in s'.frees ensures FreeOk(s', u) { assert FreeOk(s, u); }
  }

  // Whole runs.

  predicate CanRun(s: State, es: seq<Event>)
    decreases |es|, 0
  {
    es == [] || (CanRun(s, es[..|es| - 1]) && Enabled(Run(s, es[..|es| - 1]), es[|es| - 1]))
  }

  function Run(s: State, es: seq<Event>): State
    requires CanRun(s, es)
    decreases |es|, 1
  {
    if es == [] then s else Apply(Run(s, es[..|es| - 1]), es[|es| - 1])
  }

  lemma {:induction false} RunInv(s: State, es: seq<Event>)
    requires Inv(s) && CanRun(s, es)
    ensures Inv(Run(s, es)) && |Run(s, es).bits| == |s.bits| && |Run(s, es).heads| == |s.heads|
    decreases |es|
  {
    if es != [] {
      RunInv(s, es[..|es| - 1]);
      StepInv(Run(s, es[..|es| - 1]), es[|es| - 1]);
      SameSizes(Run(s, es[..|es| - 1]), es[|es| - 1]);
    }
  }

  lemma SameSizes(s: State, e: Event)
    requires Enabled(s, e)
    ensures |Apply(s, e).bits| == |s.bits| && |Apply(s, e).heads| == |s.heads|
  {}

  // The three places a claimed slot can be.

  ghost predicate WithFree(s: State, i: nat) { exists t :: t in s.frees && s.frees[t].slot == i }

  ghost predicate OnStack(s: State, i: nat) { exists k :: 0 <= k < |s.stacks| && i in s.stacks[k] }

  predicate InHand(s: State, i: nat) { i in s.detached }

  ghost predicate OnePlace(s: State, i: nat) {
    || (WithFree(s, i) && !OnStack(s, i) && !InHand(s, i))
    || (!WithFree(s, i) && OnStack(s, i) && !InHand(s, i))
    || (!WithFree(s, i) && !OnStack(s, i) && InHand(s, i))
  }

  /** A slot's bit is set exactly when it is in one of the three places, in no
      two of them, by no two frees and on no two stacks; and it has been drained
      once for every claim but the one still outstanding. */
  lemma BitMeansOnePlace(slots: nat, stripes: nat, es: seq<Event>, i: nat)
    requires CanRun(Init(slots, stripes), es) && i < slots
    ensures var s := Run(Init(slots, stripes), es);
      && |s.bits| == |s.claims| == |s.drains| == slots
      && (s.bits[i] <==> OnePlace(s, i))
      && (!s.bits[i] ==> !WithFree(s, i) && !OnStack(s, i) && !InHand(s, i))
      && (forall t, u :: t in s.frees && u in s.frees && s.frees[t].slot == s.frees[u].slot ==> t == u)
      && (forall j, k :: 0 <= j < |s.stacks| && 0 <= k < |s.stacks| && i in s.stacks[j] && i in s.stacks[k] ==> j == k)
      && s.claims[i] == s.drains[i] + (if s.bits[i] then 1 else 0)
  {
    InitInv(slots, stripes);
    RunInv(Init(slots, stripes), es);
    var s := Run(Init(slots, stripes), es);
    assert SlotOk(s, i);
    forall t | t in s.frees ensures FreeOk(s, t) {}
    forall k | 0 <= k < |s.stacks| ensures i in s.stacks[k] ==> s.place[i] == On(k) { assert StackOk(s, k); }
  }

  /** The owner walks real chains: the links from what it holds spell out
      exactly the slots it has detached and not yet drained, whatever other
      frees have done meanwhile, and so do the links from every head. */
  lemma ChainsAreIntact(slots: nat, stripes: nat, es: seq<Event>, k: nat)
    requires CanRun(Init(slots, stripes), es) && k < stripes
    ensures var s := Run(Init(slots, stripes), es);
      && |s.heads| == |s.stacks| == stripes && Sized(s)
      && Spells(s, s.heads[k], s.stacks[k]) && NoDup(s.stacks[k]) && NoDup(s.detached)
      && (s.owner.Visiting? ==> Spells(s, s.owner.head, s.detached))
      && (s.owner.Clearing? ==> s.detached != [] && s.detached[0] == s.owner.head && Spells(s, s.owner.next, s.detached[1..]))
  {
    InitInv(slots, stripes);
    RunInv(Init(slots, stripes), es);
    assert StackOk(Run(Init(slots, stripes), es), k);
  }

  // Nothing can hold up a push for long.

  /** The next step of the push that thread `t` is inside. */
  function NextOf(s: State, t: Tid): Event
    requires t in s.frees
  {
    match s.frees[t] case Loading(_, _) => Load(t) case Linking(_, _, _) => Link(t) case Swinging(_, _, _) => Swing(t, false)
  }

  /** The steps that are left if no other thread changes the head. */
  function Effort(s: State, t: Tid): nat
    requires t in s.frees && s.frees[t].stripe < |s.heads|
  {
    match s.frees[t]
    case Loading(_, _) => 3
    case Linking(_, k, seen) => if s.heads[k] == seen then 2 else 4
    case Swinging(_, k, seen) => if s.heads[k] == seen then 1 else 3
  }

  /** Its next step publishes the slot or brings it nearer to that. */
  lemma PushGoesOn(s: State, t: Tid)
    requires Inv(s) && t in s.frees
    ensures s.frees[t].stripe < |s.heads| && Enabled(s, NextOf(s, t))
    ensures var f, s' := s.frees[t], Apply(s, NextOf(s, t));
      if t in s'.frees
      then s'.frees[t].slot == f.slot && s'.frees[t].stripe == f.stripe && f.stripe < |s'.heads| && Effort(s', t) < Effort(s, t)
      else Effort(s, t) == 1 && f.stripe < |s'.stacks| && s'.stacks[f.stripe] == [f.slot] + s.stacks[f.stripe]
  {
    hide StackOk, OwnerOk, SlotOk;
    assert FreeOk(s, t);
  }

  lemma {:induction false} RunFirst(s: State, e: Event, es: seq<Event>)
    requires Enabled(s, e) && CanRun(Apply(s, e), es)
    ensures CanRun(s, [e] + es) && Run(s, [e] + es) == Run(Apply(s, e), es)
    decreases |es|
  {
    hide Enabled, Apply;
    if es == [] {
      assert [e] + es == [e] && [e][..0] == [];
    } else {
      RunFirst(s, e, es[..|es| - 1]);
      assert ([e] + es)[..|es|] == [e] + es[..|es| - 1];
    }
  }

  /** From every state that a run can reach, four steps of a thread alone are
      enough to publish the slot it has claimed. */
  lemma {:induction false} FinishesAlone(s: State, t: Tid) returns (es: seq<Event>)
    requires Inv(s) && t in s.frees
    ensures CanRun(s, es) && |es| <= 4 && (forall e :: e in es ==> e == Load(t) || e == Link(t) || e == Swing(t, false))
    ensures s.frees[t].stripe < |s.heads| && |es| <= Effort(s, t)
    ensures t !in Run(s, es).frees && s.frees[t].stripe < |Run(s, es).stacks| && s.frees[t].slot in Run(s, es).stacks[s.frees[t].stripe]
    decreases if t in s.frees && s.frees[t].stripe < |s.heads| then Effort(s, t) else 0
  {
    hide Inv, Enabled, Apply;
    PushGoesOn(s, t);
    var e := NextOf(s, t);
    StepInv(s, e);
    var rest := [];
    if t in Apply(s, e).frees {
      rest := FinishesAlone(Apply(s, e), t);
    }
    es := [e] + rest;
    RunFirst(s, e, rest);
  }
}
