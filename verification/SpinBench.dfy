/** The public-entry bench with ticket inboxes: the same workers and the same two
    barriers as in `PublicBench`, but every push and every drain goes through the
    steps of `TicketInbox`, and a push that finds its inbox full waits. */
module SpinBench {
  import opened Basics
  import B = PublicBench
  import T = TicketInbox

  datatype Phase = InLoop | First | Second

  datatype Pc = Polling | Draining(phase: Phase) | Allocating | Holding(item: nat) | Sending(item: nat, dst: nat)
              | AtFirst | AtSecond | Finished

  /** Where an object is: with the thread that holds it, sent under a ticket of
      an inbox, or freed by its own thread. */
  datatype Place = With(t: nat) | Sent(box: nat, ticket: nat) | Kept

  /** `place` and `frees` record each object's way and how often it was freed. */
  datatype State = State(iters: nat, pcs: seq<Pc>, done: seq<nat>, boxes: seq<T.State>, place: seq<Place>, frees: seq<nat>)

  /** `roll` is the random draw: 0 keeps the object, anything else picks the
      receiver. */
  datatype Step = Step(t: nat, roll: nat)

  function Start(threads: nat, iters: nat, cap: nat): State {
    State(iters, seq(threads, i => if iters == 0 then AtFirst else Polling), seq(threads, i => 0), seq(threads, i => T.Init(cap)), [], [])
  }

  predicate Shaped(s: State) {
    |s.done| == |s.boxes| == |s.pcs| && |s.frees| == |s.place| && forall b :: 0 <= b < |s.boxes| ==> T.WellSized(s.boxes[b])
  }

  predicate PastFirst(pc: Pc) { pc == AtFirst || pc == Draining(First) || PastSecond(pc) }

  predicate PastSecond(pc: Pc) { pc == AtSecond || pc == Draining(Second) || pc == Finished }

  /** The next step of the push that thread `t` is inside. */
  function PushStep(x: T.State, t: nat): T.Event
    requires t in x.producers
  {
    match x.producers[t]
    case Waiting(_, _) => T.Enter(t)
    case Writing(_, _) => T.Write(t)
    case Publishing(_, _) => T.Publish(t)
  }

  predicate Keeps(s: State, e: Step) {
    |s.pcs| <= 1 || e.roll == 0
  }

  predicate Enabled(s: State, e: Step) {
    Shaped(s) && e.t < |s.pcs| &&
    match s.pcs[e.t]
    case AtFirst => forall u :: 0 <= u < |s.pcs| ==> PastFirst(s.pcs[u])
    case AtSecond => forall u :: 0 <= u < |s.pcs| ==> PastSecond(s.pcs[u])
    case Finished => false
    case Holding(p) => p < |s.place| && (Keeps(s, e) || Receives(s, e))
    case Sending(p, dst) => dst < |s.boxes| && e.t in s.boxes[dst].producers && T.Enabled(s.boxes[dst], PushStep(s.boxes[dst], e.t))
    case _ => true
  }

  /** The receiver can be chosen, and the sender is not inside a push to it. */
  predicate Receives(s: State, e: Step) {
    |s.pcs| > 1 && B.Destination(|s.pcs|, e.t, e.roll) < |s.boxes| && e.t !in s.boxes[B.Destination(|s.pcs|, e.t, e.roll)].producers
  }

  function EndIteration(s: State, t: nat): State
    requires |s.done| == |s.pcs| && t < |s.pcs|
  {
    s.(done := s.done[t := s.done[t] + 1], pcs := s.pcs[t := if s.done[t] + 1 < s.iters then Polling else AtFirst])
  }

  /** One step of thread `t`'s drain; the object it frees is counted. */
  function Drain(s: State, t: nat, phase: Phase): State
    requires Shaped(s) && t < |s.pcs|
  {
    var x := s.boxes[t];
    var x' := T.Apply(x, T.Consume);
    s.(boxes := s.boxes[t := x'],
       frees := if x.consumer.Freeing? && x.consumer.item < |s.frees| then s.frees[x.consumer.item := s.frees[x.consumer.item] + 1] else s.frees,
       pcs := s.pcs[t := if x'.consumer.Outside? then AfterDrain(phase) else Draining(phase)])
  }

  function AfterDrain(phase: Phase): Pc {
    match phase case InLoop => Allocating case First => AtSecond case Second => Finished
  }

  function Apply(s: State, e: Step): State
    requires Enabled(s, e)
  {
    var t := e.t;
    match s.pcs[t]
    case Polling => if s.done[t] % 32 == 0 then Drain(s, t, InLoop) else s.(pcs := s.pcs[t := Allocating])
    case Draining(phase) => Drain(s, t, phase)
    case Allocating => s.(place := s.place + [With(t)], frees := s.frees + [0], pcs := s.pcs[t := Holding(|s.place|)])
    case Holding(p) =>
      if Keeps(s, e) then EndIteration(s.(place := s.place[p := Kept], frees := s.frees[p := s.frees[p] + 1]), t)
      else
        var dst := B.Destination(|s.pcs|, t, e.roll);
        s.(boxes := s.boxes[dst := T.Apply(s.boxes[dst], T.Take(t, p))], place := s.place[p := Sent(dst, s.boxes[dst].tail)],
           pcs := s.pcs[t := Sending(p, dst)])
    case Sending(p, dst) =>
      var x := s.boxes[dst];
      var s' := s.(boxes := s.boxes[dst := T.Apply(x, PushStep(x, t))]);
      if x.producers[t].Publishing? then EndIteration(s', t) else s'
    case AtFirst => Drain(s, t, First)
    case AtSecond => Drain(s, t, Second)
    case _ => s
  }

  // What every interleaving keeps.

  /** An inbox is in order, and exactly the threads that are sending to it are
      inside a push of it, with the object they send. */
  ghost predicate BoxOk(s: State, b: nat)
    requires |s.boxes| == |s.pcs| && b < |s.boxes|
  {
    var x := s.boxes[b];
    && T.Inv(x) && T.Cap(x) >= 2
    && (forall u :: u in x.producers ==> u < |s.pcs| && s.pcs[u] == Sending(x.producers[u].item, b))
    && (x.consumer.Outside? <==> !s.pcs[b].Draining?)
    && (PastSecond(s.pcs[b]) || (s.pcs[b] == Draining(First) && x.consumer.Leaving?) ==> x.freed == x.sent)
  }

  ghost predicate ThreadOk(s: State, t: nat)
    requires |s.boxes| == |s.pcs| == |s.done| && t < |s.pcs|
  {
    var pc := s.pcs[t];
    && (if PastFirst(pc) then s.done[t] == s.iters else s.done[t] < s.iters)
    && (pc.Holding? ==> pc.item < |s.place| && s.place[pc.item] == With(t))
    && (pc.Sending? ==> pc.dst < |s.pcs| && pc.dst != t && t in s.boxes[pc.dst].producers && s.boxes[pc.dst].producers[t].item == pc.item)
    && (pc == Draining(First) || PastSecond(pc) ==> forall u :: 0 <= u < |s.pcs| ==> PastFirst(s.pcs[u]))
    && (pc == Draining(Second) || pc == Finished ==> forall u :: 0 <= u < |s.pcs| ==> PastSecond(s.pcs[u]))
  }

  /** An object has been freed at most once: by its thread, or when the inbox it
      was sent to delivered it. */
  predicate ItemOk(s: State, p: nat)
    requires |s.frees| == |s.place| && p < |s.place|
  {
    match s.place[p]
    case With(t) => t < |s.pcs| && s.pcs[t] == Holding(p) && s.frees[p] == 0
    case Kept => s.frees[p] == 1
    case Sent(b, k) => b < |s.boxes| && k < |s.boxes[b].sent| && s.boxes[b].sent[k] == p
                       && s.frees[p] == if k < |s.boxes[b].freed| then 1 else 0
  }

  /** No object is sent twice. */
  predicate SentOk(s: State, b: nat)
    requires b < |s.boxes|
  {
    forall k :: 0 <= k < |s.boxes[b].sent| ==> s.boxes[b].sent[k] < |s.place| && s.place[s.boxes[b].sent[k]] == Sent(b, k)
  }

  ghost predicate Inv(s: State) {
    && Shaped(s)
    && (forall b :: 0 <= b < |s.pcs| ==> BoxOk(s, b) && SentOk(s, b))
    && (forall t :: 0 <= t < |s.pcs| ==> ThreadOk(s, t))
    && (forall p :: 0 <= p < |s.place| ==> ItemOk(s, p))
  }

  lemma StartInv(threads: nat, iters: nat, cap: nat)
    requires cap >= 2
    ensures Inv(Start(threads, iters, cap))
  {
    T.InitInv(cap);
    hide T.Inv;
  }

  // What a step does to one inbox.

  lemma TakeDoes(x: T.State, t: nat, p: nat)
    requires T.Inv(x) && T.Cap(x) >= 2 && T.Enabled(x, T.Take(t, p))
    ensures var x' := T.Apply(x, T.Take(t, p));
      && T.Inv(x') && T.Cap(x') == T.Cap(x) && x.tail == |x.sent| && x'.sent == x.sent + [p] && x'.freed == x.freed && x'.consumer == x.consumer
      && x'.producers == x.producers[t := T.Waiting(x.tail, p)] && T.At(x') == T.At(x)
  {
    T.StepInv(x, T.Take(t, p));
    hide T.CellOk, T.ProducerOk;
  }

  lemma PushDoes(x: T.State, t: nat)
    requires T.Inv(x) && T.Cap(x) >= 2 && t in x.producers && T.Enabled(x, PushStep(x, t))
    ensures var x' := T.Apply(x, PushStep(x, t));
      && T.Inv(x') && T.Cap(x') == T.Cap(x) && x'.sent == x.sent && x'.freed == x.freed && x'.consumer == x.consumer && T.At(x') == T.At(x)
      && (if x.producers[t].Publishing? then x'.producers == x.producers - {t}
          else x'.producers.Keys == x.producers.Keys && x'.producers[t].item == x.producers[t].item
               && forall u :: u in x.producers && u != t ==> x'.producers[u] == x.producers[u])
  {
    T.StepInv(x, PushStep(x, t));
    hide T.Inv;
  }

  lemma ConsumeDoes(x: T.State)
    requires T.Inv(x) && T.Cap(x) >= 2
    ensures var x' := T.Apply(x, T.Consume);
      && T.Inv(x') && T.Cap(x') == T.Cap(x) && x'.sent == x.sent && x'.producers == x.producers
      && (if x.consumer.Freeing? then |x.freed| < |x.sent| && x.consumer.item == x.sent[|x.freed|] && x'.freed == x.freed + [x.consumer.item]
          else x'.freed == x.freed)
      && (x'.consumer.Outside? <==> x.consumer.Leaving?)
      && (x'.consumer.Leaving? ==> x.consumer.Testing?)
      && (x'.consumer.Leaving? && x.producers == map[] ==> x'.freed == x'.sent)
      && (x.freed == x.sent ==> x'.freed == x'.sent)
  {
    T.StepInv(x, T.Consume);
    hide T.ProducerOk, T.OneHolder;
    if x.consumer.Testing? && x.producers == map[] {
      assert T.CellOk(x, T.At(x));
      assert !T.Held(x, T.At(x));
    }
  }

  // Every step keeps the invariant.

  /** Thread `t` may take a step of a drain for `phase`. */
  predicate Drains(s: State, t: nat, phase: Phase) {
    Shaped(s) && t < |s.pcs| &&
    (s.pcs[t] == Draining(phase)
     || (phase == InLoop && s.pcs[t] == Polling)
     || (phase == First && s.pcs[t] == AtFirst && forall u :: 0 <= u < |s.pcs| ==> PastFirst(s.pcs[u]))
     || (phase == Second && s.pcs[t] == AtSecond && forall u :: 0 <= u < |s.pcs| ==> PastSecond(s.pcs[u])))
  }

  /** Past the first barrier nobody is inside a push any more. */
  lemma NobodyPushes(s: State, b: nat)
    requires Inv(s) && b < |s.pcs| && forall u :: 0 <= u < |s.pcs| ==> PastFirst(s.pcs[u])
    ensures s.boxes[b].producers == map[]
  {
    hide T.Inv;
    assert BoxOk(s, b);
    forall u: nat ensures u !in s.boxes[b].producers {
      assert u < |s.pcs| ==> PastFirst(s.pcs[u]);
    }
  }

  lemma DrainKeeps(s: State, t: nat, phase: Phase)
    requires Inv(s) && Drains(s, t, phase)
    ensures Inv(Drain(s, t, phase))
  {
    hide T.Inv, T.Apply, BoxOk, ThreadOk, ItemOk, SentOk;
    var s' := Drain(s, t, phase);
    assert BoxOk(s, t);
    DrainSize(s, t, phase);
    forall b | 0 <= b < |s'.pcs| ensures BoxOk(s', b) && SentOk(s', b) { DrainBox(s, t, phase, b); }
    forall u | 0 <= u < |s'.pcs| ensures ThreadOk(s', u) { DrainThread(s, t, phase, u); }
    forall p | 0 <= p < |s'.place| ensures ItemOk(s', p) { DrainItem(s, t, phase, p); }
  }

  lemma DrainSize(s: State, t: nat, phase: Phase)
    requires Inv(s) && Drains(s, t, phase)
    ensures Shaped(Drain(s, t, phase))
  {
    hide T.Inv;
    assert BoxOk(s, t);
    ConsumeDoes(s.boxes[t]);
    SizedByInv(T.Apply(s.boxes[t], T.Consume));
  }

  lemma SizedByInv(x: T.State)
    requires T.Inv(x)
    ensures T.WellSized(x)
  {}

  lemma DrainBox(s: State, t: nat, phase: Phase, b: nat)
    requires Inv(s) && Drains(s, t, phase) && b < |s.pcs|
    ensures BoxOk(Drain(s, t, phase), b) && SentOk(Drain(s, t, phase), b)
  {
    hide T.Inv, T.Apply, ItemOk;
    assert BoxOk(s, b) && BoxOk(s, t) && SentOk(s, b) && ThreadOk(s, t);
    ConsumeDoes(s.boxes[t]);
    if phase != InLoop { NobodyPushes(s, t); }
  }

  lemma DrainThread(s: State, t: nat, phase: Phase, u: nat)
    requires Inv(s) && Drains(s, t, phase) && u < |s.pcs|
    ensures ThreadOk(Drain(s, t, phase), u)
  {
    hide T.Inv, T.Apply, ItemOk, SentOk;
    assert ThreadOk(s, u) && ThreadOk(s, t) && BoxOk(s, t);
    ConsumeDoes(s.boxes[t]);
  }

  /** Only the object that is delivered is freed, and for the first time. */
  lemma DrainItem(s: State, t: nat, phase: Phase, p: nat)
    requires Inv(s) && Drains(s, t, phase) && p < |s.place|
    ensures ItemOk(Drain(s, t, phase), p)
  {
    hide T.Inv, T.Apply;
    assert BoxOk(s, t) && ItemOk(s, p) && SentOk(s, t);
    ConsumeDoes(s.boxes[t]);
  }

  lemma AllocateKeeps(s: State, e: Step)
    requires Inv(s) && Enabled(s, e) && s.pcs[e.t] == Allocating
    ensures Inv(Apply(s, e))
  {
    hide T.Inv;
    var s' := Apply(s, e);
    assert ThreadOk(s, e.t);
    forall b | 0 <= b < |s'.pcs| ensures BoxOk(s', b) && SentOk(s', b) { assert BoxOk(s, b) && SentOk(s, b); }
    forall u | 0 <= u < |s'.pcs| ensures ThreadOk(s', u) { assert ThreadOk(s, u); }
    forall p | 0 <= p < |s'.place| ensures ItemOk(s', p) { if p < |s.place| { assert ItemOk(s, p); } }
  }

  lemma StartAllocatingKeeps(s: State, t: nat)
    requires Inv(s) && t < |s.pcs| && s.pcs[t] == Polling
    ensures Inv(s.(pcs := s.pcs[t := Allocating]))
  {
    hide T.Inv;
    var s' := s.(pcs := s.pcs[t := Allocating]);
    assert ThreadOk(s, t);
    forall b | 0 <= b < |s'.pcs| ensures BoxOk(s', b) && SentOk(s', b) { assert BoxOk(s, b) && SentOk(s, b); }
    forall u | 0 <= u < |s'.pcs| ensures ThreadOk(s', u) { assert ThreadOk(s, u); }
    forall p | 0 <= p < |s'.place| ensures ItemOk(s', p) { assert ItemOk(s, p); }
  }

  lemma KeepKeeps(s: State, e: Step)
    requires Inv(s) && Enabled(s, e) && s.pcs[e.t].Holding? && Keeps(s, e)
    ensures Inv(Apply(s, e))
  {
    hide T.Inv;
    var s' := Apply(s, e);
    assert ThreadOk(s, e.t) && ItemOk(s, s.pcs[e.t].item);
    forall b | 0 <= b < |s'.pcs| ensures BoxOk(s', b) && SentOk(s', b) { assert BoxOk(s, b) && SentOk(s, b); }
    forall u | 0 <= u < |s'.pcs| ensures ThreadOk(s', u) { assert ThreadOk(s, u); }
    forall p | 0 <= p < |s'.place| ensures ItemOk(s', p) { assert ItemOk(s, p); }
  }

  /** Thread `e.t` may take a ticket for the object it holds. */
  predicate Takes(s: State, e: Step) {
    Enabled(s, e) && s.pcs[e.t].Holding? && !Keeps(s, e)
  }

  lemma TakeKeeps(s: State, e: Step)
    requires Inv(s) && Takes(s, e)
    ensures Inv(Apply(s, e))
  {
    hide T.Inv, T.Apply, T.Enabled, B.Destination, BoxOk, ThreadOk, ItemOk, SentOk;
    var s' := Apply(s, e);
    TakeSize(s, e);
    forall b | 0 <= b < |s'.pcs| ensures BoxOk(s', b) && SentOk(s', b) { TakeBox(s, e, b); }
    forall u | 0 <= u < |s'.pcs| ensures ThreadOk(s', u) { TakeThread(s, e, u); }
    forall q | 0 <= q < |s'.place| ensures ItemOk(s', q) { TakeItem(s, e, q); }
  }

  /** The ticket the thread gets, and that its inbox is still open. */
  lemma TakeFacts(s: State, e: Step)
    requires Inv(s) && Takes(s, e)
    ensures var t, p, dst := e.t, s.pcs[e.t].item, B.Destination(|s.pcs|, e.t, e.roll);
      var x, x' := s.boxes[dst], T.Apply(s.boxes[dst], T.Take(t, p));
      && t !in x.producers && T.Inv(x') && T.Cap(x') == T.Cap(x) && x.tail == |x.sent| && x'.sent == x.sent + [p] && x'.freed == x.freed
      && x'.consumer == x.consumer && x'.producers == x.producers[t := T.Waiting(x.tail, p)] && T.WellSized(x') && T.At(x') == T.At(x)
      && !PastSecond(s.pcs[dst]) && s.pcs[dst] != Draining(First) && s.place[p] == With(t) && s.frees[p] == 0
      && |x.freed| <= |x.sent| && dst != t
  {
    hide T.Inv, T.Apply, T.Enabled, B.Destination, SentOk;
    var t, p, dst := e.t, s.pcs[e.t].item, B.Destination(|s.pcs|, e.t, e.roll);
    B.DestinationIsAnother(|s.pcs|, t, e.roll);
    assert ThreadOk(s, t) && ItemOk(s, p) && BoxOk(s, dst) && ThreadOk(s, dst);
    TakeEnabled(s.boxes[dst], t, p);
    TakeDoes(s.boxes[dst], t, p);
    SizedByInv(T.Apply(s.boxes[dst], T.Take(t, p)));
    T.FreedIsSent(s.boxes[dst]);
  }

  lemma TakeSize(s: State, e: Step)
    requires Inv(s) && Takes(s, e)
    ensures Shaped(Apply(s, e))
  {
    hide T.Inv, T.Apply, T.Enabled, B.Destination, BoxOk, ThreadOk, ItemOk, SentOk;
    TakeFacts(s, e);
  }

  lemma TakeBox(s: State, e: Step, b: nat)
    requires Inv(s) && Takes(s, e) && b < |s.pcs|
    ensures BoxOk(Apply(s, e), b) && SentOk(Apply(s, e), b)
  {
    hide T.Inv, T.Apply, T.Enabled, B.Destination, ThreadOk, ItemOk;
    TakeFacts(s, e);
    assert BoxOk(s, b) && SentOk(s, b) && BoxOk(s, e.t);
  }

  lemma TakeThread(s: State, e: Step, u: nat)
    requires Inv(s) && Takes(s, e) && u < |s.pcs|
    ensures ThreadOk(Apply(s, e), u)
  {
    hide T.Inv, T.Apply, T.Enabled, B.Destination, BoxOk, ItemOk, SentOk;
    TakeFacts(s, e);
    assert ThreadOk(s, u) && ThreadOk(s, e.t);
  }

  lemma TakeItem(s: State, e: Step, q: nat)
    requires Inv(s) && Takes(s, e) && q < |s.place|
    ensures ItemOk(Apply(s, e), q)
  {
    hide T.Inv, T.Apply, T.Enabled, B.Destination, BoxOk, ThreadOk, SentOk;
    TakeFacts(s, e);
    assert ItemOk(s, q);
  }

  lemma TakeEnabled(x: T.State, t: nat, p: nat)
    requires T.Inv(x) && t !in x.producers
    ensures T.Enabled(x, T.Take(t, p))
  {}

  predicate Pushes(s: State, e: Step) {
    Enabled(s, e) && s.pcs[e.t].Sending?
  }

  lemma PushKeeps(s: State, e: Step)
    requires Inv(s) && Pushes(s, e)
    ensures Inv(Apply(s, e))
  {
    hide T.Inv, T.Apply, T.Enabled, BoxOk, ThreadOk, ItemOk, SentOk, PushStep;
    var s' := Apply(s, e);
    PushFacts(s, e);
    forall b | 0 <= b < |s'.pcs| ensures BoxOk(s', b) && SentOk(s', b) { PushBox(s, e, b); }
    forall u | 0 <= u < |s'.pcs| ensures ThreadOk(s', u) { PushThread(s, e, u); }
    forall q | 0 <= q < |s'.place| ensures ItemOk(s', q) { PushItem(s, e, q); }
  }

  lemma PushFacts(s: State, e: Step)
    requires Inv(s) && Pushes(s, e)
    ensures var t, dst := e.t, s.pcs[e.t].dst;
      var x, x' := s.boxes[dst], T.Apply(s.boxes[dst], PushStep(s.boxes[dst], t));
      && T.Inv(x') && T.WellSized(x') && T.Cap(x') == T.Cap(x) && x'.sent == x.sent && x'.freed == x.freed && x'.consumer == x.consumer && T.At(x') == T.At(x)
      && (if x.producers[t].Publishing? then x'.producers == x.producers - {t}
          else x'.producers.Keys == x.producers.Keys && x'.producers[t].item == x.producers[t].item
               && forall u :: u in x.producers && u != t ==> x'.producers[u] == x.producers[u])
  {
    hide T.Inv, T.Apply, T.Enabled, SentOk, ItemOk;
    assert BoxOk(s, s.pcs[e.t].dst);
    PushDoes(s.boxes[s.pcs[e.t].dst], e.t);
    SizedByInv(T.Apply(s.boxes[s.pcs[e.t].dst], PushStep(s.boxes[s.pcs[e.t].dst], e.t)));
  }

  lemma PushBox(s: State, e: Step, b: nat)
    requires Inv(s) && Pushes(s, e) && b < |s.pcs|
    ensures BoxOk(Apply(s, e), b) && SentOk(Apply(s, e), b)
  {
    hide T.Inv, T.Apply, T.Enabled, ItemOk, PushStep;
    PushFacts(s, e);
    assert BoxOk(s, b) && SentOk(s, b) && ThreadOk(s, e.t) && BoxOk(s, e.t);
  }

  lemma PushThread(s: State, e: Step, u: nat)
    requires Inv(s) && Pushes(s, e) && u < |s.pcs|
    ensures ThreadOk(Apply(s, e), u)
  {
    hide T.Inv, T.Apply, T.Enabled, BoxOk, ItemOk, SentOk, PushStep;
    PushFacts(s, e);
    assert ThreadOk(s, u) && ThreadOk(s, e.t);
  }

  lemma PushItem(s: State, e: Step, q: nat)
    requires Inv(s) && Pushes(s, e) && q < |s.place|
    ensures ItemOk(Apply(s, e), q)
  {
    hide T.Inv, T.Apply, T.Enabled, BoxOk, ThreadOk, SentOk, PushStep;
    PushFacts(s, e);
    assert ItemOk(s, q);
  }

  lemma StepInv(s: State, e: Step)
    requires Inv(s) && Enabled(s, e)
    ensures Inv(Apply(s, e)) && |Apply(s, e).pcs| == |s.pcs| && Apply(s, e).iters == s.iters
  {
    hide Inv, T.Apply, T.Enabled;
    var t := e.t;
    match s.pcs[t]
    case Polling => if s.done[t] % 32 == 0 { DrainKeeps(s, t, InLoop); } else { StartAllocatingKeeps(s, t); }
    case Draining(phase) => DrainKeeps(s, t, phase);
    case Allocating => AllocateKeeps(s, e);
    case Holding(_) => if Keeps(s, e) { KeepKeeps(s, e); } else { TakeKeeps(s, e); }
    case Sending(_, _) => PushKeeps(s, e);
    case AtFirst => DrainKeeps(s, t, First);
    case AtSecond => DrainKeeps(s, t, Second);
    case Finished =>
  }

  // Whole runs.

  predicate CanRun(s: State, es: seq<Step>)
    decreases |es|, 0
  {
    es == [] || (CanRun(s, es[..|es| - 1]) && Enabled(Run(s, es[..|es| - 1]), es[|es| - 1]))
  }

  function Run(s: State, es: seq<Step>): State
    requires CanRun(s, es)
    decreases |es|, 1
  {
    if es == [] then s else Apply(Run(s, es[..|es| - 1]), es[|es| - 1])
  }

  lemma {:induction false} RunInv(s: State, es: seq<Step>)
    requires Inv(s) && CanRun(s, es)
    ensures var s' := Run(s, es); Inv(s') && |s'.pcs| == |s.pcs| && s'.iters == s.iters
    decreases |es|
  {
    hide Inv, Enabled, Apply;
    if es != [] {
      RunInv(s, es[..|es| - 1]);
      StepInv(Run(s, es[..|es| - 1]), es[|es| - 1]);
    }
  }

  /** No object is freed twice, on any run. */
  lemma FreedAtMostOnce(threads: nat, iters: nat, cap: nat, es: seq<Step>, p: nat)
    requires cap >= 2 && CanRun(Start(threads, iters, cap), es)
    ensures var s := Run(Start(threads, iters, cap), es); |s.frees| == |s.place| && (p < |s.frees| ==> s.frees[p] <= 1)
  {
    hide T.Inv, BoxOk, ThreadOk, SentOk;
    StartInv(threads, iters, cap);
    RunInv(Start(threads, iters, cap), es);
    var s := Run(Start(threads, iters, cap), es);
    if p < |s.place| { assert ItemOk(s, p); }
  }

  /** The barriers hold: a thread drains after the first one only when all have
      reached it, and after the second only when all have drained once. */
  lemma BarriersHold(threads: nat, iters: nat, cap: nat, es: seq<Step>, t: nat, u: nat)
    requires cap >= 2 && CanRun(Start(threads, iters, cap), es) && t < threads && u < threads
    ensures var s := Run(Start(threads, iters, cap), es);
      && |s.pcs| == threads
      && (s.pcs[t] == Draining(First) || PastSecond(s.pcs[t]) ==> PastFirst(s.pcs[u]))
      && (s.pcs[t] == Draining(Second) || s.pcs[t] == Finished ==> PastSecond(s.pcs[u]))
  {
    hide T.Inv, BoxOk, ItemOk, SentOk;
    StartInv(threads, iters, cap);
    RunInv(Start(threads, iters, cap), es);
    assert ThreadOk(Run(Start(threads, iters, cap), es), t);
  }

  /** When all threads have finished, every inbox has delivered everything that
      was pushed to it, in ticket order, and every object that was allocated has
      been freed exactly once. */
  lemma AllFreedAtTheEnd(threads: nat, iters: nat, cap: nat, es: seq<Step>)
    requires cap >= 2 && CanRun(Start(threads, iters, cap), es)
    requires forall t :: 0 <= t < |Run(Start(threads, iters, cap), es).pcs| ==> Run(Start(threads, iters, cap), es).pcs[t] == Finished
    ensures var s := Run(Start(threads, iters, cap), es);
      && |s.boxes| == threads && (forall b :: 0 <= b < threads ==> s.boxes[b].freed == s.boxes[b].sent && s.boxes[b].producers == map[])
      && forall p :: 0 <= p < |s.frees| ==> s.frees[p] == 1
  {
    hide T.Inv, Apply, Enabled;
    StartInv(threads, iters, cap);
    RunInv(Start(threads, iters, cap), es);
    var s := Run(Start(threads, iters, cap), es);
    forall b | 0 <= b < threads ensures s.boxes[b].freed == s.boxes[b].sent && s.boxes[b].producers == map[] {
      assert BoxOk(s, b);
      NobodyPushes(s, b);
    }
    forall p | 0 <= p < |s.frees| ensures s.frees[p] == 1 { assert ItemOk(s, p); }
  }

  // Waiting.

  /** What thread `u` has sent to inbox `b` is no more than the iterations it has
      begun. */
  function Sendings(s: State, b: nat, u: nat): nat
    requires |s.done| == |s.pcs| && u < |s.pcs|
  {
    if u == b then 0 else s.done[u] + (if s.pcs[u].Sending? && s.pcs[u].dst == b then 1 else 0)
  }

  function Loads(s: State, b: nat): (r: seq<nat>)
    requires |s.done| == |s.pcs|
    ensures |r| == |s.pcs| && forall u :: 0 <= u < |r| ==> r[u] == Sendings(s, b, u)
  {
    seq(|s.pcs|, u requires 0 <= u < |s.pcs| => Sendings(s, b, u))
  }

  predicate Bounded(s: State, b: nat)
    requires |s.done| == |s.pcs| && b < |s.boxes|
  {
    |s.boxes[b].sent| <= Sum(Loads(s, b))
  }

  /** One thread's load has changed, by at least what it sent. */
  lemma LoadChange(s: State, s': State, b: nat, t: nat)
    requires |s.done| == |s.pcs| == |s'.pcs| == |s'.done| && b < |s.boxes| == |s'.boxes| && t < |s.pcs| && Bounded(s, b)
    requires forall u :: 0 <= u < |s.pcs| && u != t ==> s'.pcs[u] == s.pcs[u] && s'.done[u] == s.done[u]
    requires |s'.boxes[b].sent| - |s.boxes[b].sent| <= Sendings(s', b, t) - Sendings(s, b, t)
    ensures Bounded(s', b)
  {
    SumUpdate(Loads(s, b), t, Sendings(s', b, t));
    assert Loads(s', b) == Loads(s, b)[t := Sendings(s', b, t)];
  }

  lemma InOrder(s: State, b: nat)
    requires Inv(s) && b < |s.pcs|
    ensures T.Inv(s.boxes[b]) && T.Cap(s.boxes[b]) >= 2
  {
    hide T.Inv;
    assert BoxOk(s, b);
  }

  lemma StepBounded(s: State, e: Step, b: nat)
    requires Inv(s) && Enabled(s, e) && b < |s.pcs| && Bounded(s, b)
    ensures |Apply(s, e).done| == |Apply(s, e).pcs| == |Apply(s, e).boxes| == |s.pcs| && Bounded(Apply(s, e), b)
  {
    hide T.Inv, T.Apply, T.Enabled, Sum, Loads, Bounded, B.Destination, BoxOk, ItemOk, SentOk;
    var s', t := Apply(s, e), e.t;
    assert ThreadOk(s, t);
    if s.pcs[t].Sending? {
      PushFacts(s, e);
    } else if s.pcs[t].Holding? && !Keeps(s, e) {
      TakeFacts(s, e);
    } else if s.pcs[t] == Polling || s.pcs[t].Draining? || s.pcs[t] == AtFirst || s.pcs[t] == AtSecond {
      InOrder(s, t);
      ConsumeDoes(s.boxes[t]);
    }
    LoadChange(s, s', b, t);
  }

  lemma {:induction false} RunBounded(s: State, es: seq<Step>, b: nat)
    requires Inv(s) && CanRun(s, es) && b < |s.pcs| && Bounded(s, b)
    ensures var s' := Run(s, es); Inv(s') && |s'.pcs| == |s.pcs| && Bounded(s', b)
    decreases |es|
  {
    hide Inv, Enabled, Apply, Bounded;
    RunInv(s, es);
    if es != [] {
      RunInv(s, es[..|es| - 1]);
      RunBounded(s, es[..|es| - 1], b);
      StepBounded(Run(s, es[..|es| - 1]), es[|es| - 1], b);
    }
  }

  lemma LoadIsSmall(s: State, b: nat)
    requires Inv(s) && b < |s.pcs|
    ensures Sum(Loads(s, b)) <= s.iters * (|s.pcs| - 1)
  {
    hide T.Inv, BoxOk, ItemOk, SentOk, Sum;
    var xs := Loads(s, b);
    forall u | 0 <= u < |xs| ensures xs[u] <= s.iters { assert ThreadOk(s, u); }
    SumUpdate(xs, b, s.iters);
    B.SumBound(xs[b := s.iters], s.iters);
    assert s.iters * |xs| == s.iters * (|xs| - 1) + s.iters;
  }

  lemma StartsUnloaded(threads: nat, iters: nat, cap: nat, b: nat)
    requires b < threads
    ensures Bounded(Start(threads, iters, cap), b)
  {}

  ghost predicate AllCaps(s: State, cap: nat) {
    forall b :: 0 <= b < |s.boxes| ==> T.Cap(s.boxes[b]) == cap
  }

  lemma StepCaps(s: State, e: Step, cap: nat)
    requires Inv(s) && Enabled(s, e) && AllCaps(s, cap)
    ensures AllCaps(Apply(s, e), cap)
  {
    hide T.Inv, T.Apply, T.Enabled, B.Destination, BoxOk, ItemOk, SentOk, ThreadOk, T.Cap;
    var t := e.t;
    if s.pcs[t].Sending? {
      PushFacts(s, e);
    } else if s.pcs[t].Holding? && !Keeps(s, e) {
      TakeFacts(s, e);
    } else if s.pcs[t] == Polling || s.pcs[t].Draining? || s.pcs[t] == AtFirst || s.pcs[t] == AtSecond {
      InOrder(s, t);
      ConsumeDoes(s.boxes[t]);
    }
  }

  lemma {:induction false} RunCaps(s: State, es: seq<Step>, cap: nat)
    requires Inv(s) && CanRun(s, es) && AllCaps(s, cap)
    ensures AllCaps(Run(s, es), cap)
    decreases |es|
  {
    hide Inv, Enabled, Apply, AllCaps;
    if es != [] {
      RunInv(s, es[..|es| - 1]);
      RunCaps(s, es[..|es| - 1], cap);
      StepCaps(Run(s, es[..|es| - 1]), es[|es| - 1], cap);
    }
  }

  lemma NoWaitAt(s: State, t: nat, roll: nat, cap: nat)
    requires Inv(s) && t < |s.pcs| && s.pcs[t].Sending? && AllCaps(s, cap) && cap >= s.iters * (|s.pcs| - 1)
    requires s.pcs[t].dst < |s.pcs| ==> Bounded(s, s.pcs[t].dst)
    ensures Enabled(s, Step(t, roll))
  {
    hide T.Inv, T.Enabled, BoxOk, ItemOk, SentOk, T.Cap, PushStep, Sum, Loads;
    assert ThreadOk(s, t);
    LoadIsSmall(s, s.pcs[t].dst);
    InOrder(s, s.pcs[t].dst);
    RoomForAll(s, s.pcs[t].dst, t);
  }

  /** Where an inbox has room for everything that the other workers can send to
      it, no push ever waits. The capacity that the bench computes for itself is
      more than that. */
  lemma DefaultNeverWaits(threads: nat, iters: nat, cap: nat, es: seq<Step>, t: nat, roll: nat)
    requires cap >= 2 && cap >= iters * (threads - 1) && CanRun(Start(threads, iters, cap), es)
    requires t < |Run(Start(threads, iters, cap), es).pcs| && Run(Start(threads, iters, cap), es).pcs[t].Sending?
    ensures Enabled(Run(Start(threads, iters, cap), es), Step(t, roll))
  {
    hide Inv, Enabled, Apply, Bounded, AllCaps;
    StartInv(threads, iters, cap);
    RunInv(Start(threads, iters, cap), es);
    StartCaps(threads, iters, cap);
    RunCaps(Start(threads, iters, cap), es, cap);
    var s := Run(Start(threads, iters, cap), es);
    var dst := s.pcs[t].dst;
    if dst < threads {
      StartsUnloaded(threads, iters, cap, dst);
      RunBounded(Start(threads, iters, cap), es, dst);
    }
    NoWaitAt(s, t, roll, cap);
  }

  lemma StartCaps(threads: nat, iters: nat, cap: nat)
    ensures AllCaps(Start(threads, iters, cap), cap)
  {}

  lemma RoomForAll(s: State, b: nat, t: nat)
    requires Shaped(s) && b < |s.boxes| && T.Inv(s.boxes[b]) && t in s.boxes[b].producers && |s.boxes[b].sent| <= T.Cap(s.boxes[b])
    ensures T.Enabled(s.boxes[b], PushStep(s.boxes[b], t))
  {
    hide T.CellOk, T.OneHolder;
    assert T.ProducerOk(s.boxes[b], t);
  }

  /** Thread `t` waits for room in the inbox of thread `u`. */
  predicate WaitsFor(s: State, t: nat, u: nat) {
    Shaped(s) && t < |s.pcs| && u < |s.pcs| && s.pcs[t].Sending? && s.pcs[t].dst == u && t in s.boxes[u].producers
    && s.boxes[u].producers[t].Waiting? && s.boxes[u].producers[t].ticket >= T.At(s.boxes[u]) + T.Cap(s.boxes[u])
  }

  lemma WaiterIsBlocked(s: State, t: nat, u: nat, e: Step)
    requires Inv(s) && WaitsFor(s, t, u) && Enabled(s, e)
    ensures e.t != t
  {
    if e.t == t {
      InOrder(s, u);
      hide Inv;
      T.LapAheadBlocks(s.boxes[u], s.boxes[u].producers[t].ticket);
    }
  }

  lemma OthersDoNotHelp(s: State, t: nat, u: nat, e: Step)
    requires Inv(s) && WaitsFor(s, t, u) && Enabled(s, e) && e.t != t && e.t != u
    ensures WaitsFor(Apply(s, e), t, u)
  {
    hide T.Inv, T.Apply, T.Enabled, BoxOk, ThreadOk, ItemOk, SentOk, B.Destination;
    StepShaped(s, e);
    if s.pcs[e.t].Sending? {
      PushFacts(s, e);
    } else if s.pcs[e.t].Holding? && !Keeps(s, e) {
      TakeFacts(s, e);
    }
  }

  lemma StepShaped(s: State, e: Step)
    requires Inv(s) && Enabled(s, e)
    ensures Shaped(Apply(s, e)) && |Apply(s, e).pcs| == |s.pcs|
  {
    hide Enabled, Apply;
    StepInv(s, e);
  }

  /** Two threads that wait for room in each other's inboxes wait for ever: only
      a thread drains its own inbox, and it does so between pushes. */
  lemma {:induction false} MutualWaitIsForever(s: State, t: nat, u: nat, es: seq<Step>)
    requires Inv(s) && WaitsFor(s, t, u) && WaitsFor(s, u, t) && CanRun(s, es)
    ensures WaitsFor(Run(s, es), t, u) && WaitsFor(Run(s, es), u, t)
    decreases |es|
  {
    hide Inv, Enabled, Apply, WaitsFor;
    if es != [] {
      var mid, e := Run(s, es[..|es| - 1]), es[|es| - 1];
      MutualWaitIsForever(s, t, u, es[..|es| - 1]);
      RunInv(s, es[..|es| - 1]);
      WaiterIsBlocked(mid, t, u, e);
      WaiterIsBlocked(mid, u, t, e);
      OthersDoNotHelp(mid, t, u, e);
      OthersDoNotHelp(mid, u, t, e);
    }
  }

  /** A worker that waits for room with one that has reached the first barrier
      waits for ever: that one drains only after the barrier, and the barrier
      opens only when the waiter arrives. */
  lemma {:induction false} BarrierWaitIsForever(s: State, t: nat, u: nat, es: seq<Step>)
    requires Inv(s) && WaitsFor(s, t, u) && s.pcs[u] == AtFirst && CanRun(s, es)
    ensures WaitsFor(Run(s, es), t, u) && Run(s, es).pcs[u] == AtFirst
    decreases |es|
  {
    hide Inv, Enabled, Apply;
    if es != [] {
      var mid, e := Run(s, es[..|es| - 1]), es[|es| - 1];
      BarrierWaitIsForever(s, t, u, es[..|es| - 1]);
      RunInv(s, es[..|es| - 1]);
      WaiterIsBlocked(mid, t, u, e);
      StaysAtBarrier(mid, t, u, e);
      OthersDoNotHelp(mid, t, u, e);
    }
  }

  lemma StaysAtBarrier(s: State, t: nat, u: nat, e: Step)
    requires Inv(s) && WaitsFor(s, t, u) && s.pcs[u] == AtFirst && Enabled(s, e) && e.t != t
    ensures e.t != u && u < |Apply(s, e).pcs| && Apply(s, e).pcs[u] == AtFirst
  {
    assert !PastFirst(s.pcs[t]);
    hide T.Apply, T.Enabled;
  }

  /** Worker `t` is inside a push and, on every continuation, stays there: it
      never takes another step. */
  ghost predicate Stuck(s: State, t: nat) {
    t < |s.pcs| && s.pcs[t].Sending? && forall es, roll :: CanRun(s, es) ==> !Enabled(Run(s, es), Step(t, roll))
  }

  lemma BarrierSticks(s: State, t: nat, u: nat)
    requires Inv(s) && WaitsFor(s, t, u) && s.pcs[u] == AtFirst
    ensures Stuck(s, t)
  {
    hide Inv, Enabled, CanRun, Run;
    forall es, roll | CanRun(s, es) ensures !Enabled(Run(s, es), Step(t, roll)) {
      BarrierWaitIsForever(s, t, u, es);
      RunInv(s, es);
      if Enabled(Run(s, es), Step(t, roll)) { WaiterIsBlocked(Run(s, es), t, u, Step(t, roll)); }
    }
  }
}
