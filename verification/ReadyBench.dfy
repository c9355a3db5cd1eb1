/** The bench that compares polling with the ready stack: one producer frees all
    slots of a page and the owner destroys the page once it looks idle. The
    bench frees a slot completely before it notes it, and after the last one
    reads the page's owner token to set a done flag; so a destroy could catch the
    producer still at the page. Waiting for the flag prevents that. */
module ReadyBench {

  /** The producer's next step, at slot `k`. All but the store of the done flag,
      which lives outside the page, are accesses to the page. */
  datatype Pc = Publishing(k: nat) | ReadingToken | SettingDone | LoadingFlag(k: nat) | Decrementing(k: nat)
              | TakingFlag(k: nat) | Pushing(k: nat) | Finished

  /** `event` is the ready-stack set, otherwise the page is polled; `guard` is
      whether the owner waits for the done flag. */
  datatype Mode = Mode(slots: nat, event: bool, guard: bool)

  datatype State = State(pc: Pc, published: nat, merged: nat, done: bool, flag: bool, outstanding: nat, ready: bool,
                         popped: bool, destroyed: bool, misses: nat, touchedLate: bool)

  datatype Step = Produce | Pop | Drain | Check

  function Init(m: Mode): State {
    State(Publishing(0), 0, 0, false, m.event, m.slots, false, false, false, 0, false)
  }

  /** After slot `k` is noted. */
  function NextSlot(m: Mode, k: nat): Pc {
    if k + 1 < m.slots then Publishing(k + 1) else Finished
  }

  function AfterFree(m: Mode, k: nat): Pc {
    if m.event then LoadingFlag(k) else NextSlot(m, k)
  }

  function ProducerStep(m: Mode, s: State): State {
    match s.pc
    case Publishing(k) => s.(published := s.published + 1, pc := if k + 1 == m.slots then ReadingToken else AfterFree(m, k))
    case ReadingToken => s.(pc := SettingDone)
    case SettingDone => s.(done := true, pc := AfterFree(m, if m.slots > 0 then m.slots - 1 else 0))
    case LoadingFlag(k) => s.(pc := if s.flag then Decrementing(k) else NextSlot(m, k))
    case Decrementing(k) =>
      s.(outstanding := if s.outstanding > 0 then s.outstanding - 1 else 0, pc := if s.outstanding == 1 then TakingFlag(k) else NextSlot(m, k))
    case TakingFlag(k) => s.(flag := false, pc := if s.flag then Pushing(k) else NextSlot(m, k))
    case Pushing(k) => s.(ready := true, pc := NextSlot(m, k))
    case Finished => s
  }

  predicate LooksIdle(m: Mode, s: State) {
    s.merged == m.slots && (m.guard ==> s.done)
  }

  predicate Enabled(m: Mode, s: State, e: Step) {
    match e
    case Produce => s.pc != Finished
    case Pop => m.event && s.ready
    case Drain => !s.destroyed && (m.event ==> s.popped)
    case Check => !s.destroyed && (m.event ==> s.popped && s.merged == s.published)
  }

  /** The owner's checks, and any access of the producer to a destroyed page. */
  function Apply(m: Mode, s: State, e: Step): State
    requires Enabled(m, s, e)
  {
    match e
    case Produce => ProducerStep(m, s).(touchedLate := s.touchedLate || (s.destroyed && s.pc != SettingDone))
    case Pop => s.(ready := false, popped := true)
    case Drain => s.(merged := s.published)
    case Check => if LooksIdle(m, s) then s.(destroyed := true) else s.(popped := false, misses := s.misses + 1)
  }

  predicate CanRun(m: Mode, s: State, es: seq<Step>)
    decreases |es|, 0
  {
    es == [] || (CanRun(m, s, es[..|es| - 1]) && Enabled(m, Run(m, s, es[..|es| - 1]), es[|es| - 1]))
  }

  function Run(m: Mode, s: State, es: seq<Step>): State
    requires CanRun(m, s, es)
    decreases |es|, 1
  {
    if es == [] then s else Apply(m, Run(m, s, es[..|es| - 1]), es[|es| - 1])
  }

  /** How many slots the producer has freed, and how many it has noted. */
  function FreedBy(m: Mode, pc: Pc): nat {
    match pc
    case Publishing(k) => k
    case ReadingToken => m.slots
    case SettingDone => m.slots
    case Finished => m.slots
    case _ => pc.k + 1
  }

  function NotedBy(m: Mode, pc: Pc): nat {
    match pc
    case ReadingToken => if m.slots > 0 then m.slots - 1 else 0
    case SettingDone => if m.slots > 0 then m.slots - 1 else 0
    case TakingFlag(k) => k + 1
    case Pushing(k) => k + 1
    case Finished => m.slots
    case _ => pc.k
  }

  predicate Noting(pc: Pc) {
    pc.LoadingFlag? || pc.Decrementing? || pc.TakingFlag? || pc.Pushing?
  }

  predicate Inv(m: Mode, s: State) {
    && m.slots > 0 && (m.guard || m.event)
    && (s.pc.Publishing? || Noting(s.pc) ==> s.pc.k < m.slots)
    && (Noting(s.pc) ==> m.event)
    && (s.pc.TakingFlag? || s.pc.Pushing? ==> s.pc.k + 1 == m.slots)
    && s.published == FreedBy(m, s.pc) && s.merged <= s.published
    && (s.done ==> s.published == m.slots && s.pc != ReadingToken && s.pc != SettingDone)
    && (s.pc == Finished || (Noting(s.pc) && s.pc.k + 1 == m.slots) ==> s.done)
    && (m.event && s.pc != Finished && !s.pc.Pushing? ==> s.flag && s.outstanding == m.slots - NotedBy(m, s.pc))
    && (s.ready || s.popped || (m.event && s.destroyed) ==> s.pc == Finished)
    && (!m.event && s.destroyed ==> s.pc == Finished) && (m.event ==> s.misses == 0)
    && (m.event && s.pc == Finished && !s.destroyed ==> s.ready || s.popped)
    && (m.event && (s.pc == Finished || s.pc.Pushing?) ==> !s.flag) && (m.event ==> !(s.ready && (s.popped || s.destroyed)))
    && !s.touchedLate
  }

  lemma StepInv(m: Mode, s: State, e: Step)
    requires Inv(m, s) && Enabled(m, s, e)
    ensures Inv(m, Apply(m, s, e))
  {}

  /** With the done flag or the ready stack, the producer never touches a
      destroyed page, and a page that comes off the ready stack is always
      reclaimable: because a slot is visible before it is noted, there are no
      false positives. */
  lemma {:induction false} SafeModesAreSafe(m: Mode, es: seq<Step>)
    requires m.slots > 0 && (m.guard || m.event) && CanRun(m, Init(m), es)
    ensures Inv(m, Run(m, Init(m), es))
    ensures !Run(m, Init(m), es).touchedLate && (m.event ==> Run(m, Init(m), es).misses == 0)
    decreases |es|
  {
    if es != [] {
      SafeModesAreSafe(m, es[..|es| - 1]);
      StepInv(m, Run(m, Init(m), es[..|es| - 1]), es[|es| - 1]);
    }
  }

  // The page can always be destroyed.

  /** The producer's steps that are left. */
  function Behind(m: Mode, pc: Pc): nat {
    match pc
    case Finished => 0
    case ReadingToken => 7
    case SettingDone => 6
    case Publishing(k) => 7 * (if k < m.slots then m.slots - k else 0) + 1
    case LoadingFlag(k) => 7 * (if k + 1 < m.slots then m.slots - k - 1 else 0) + 5
    case Decrementing(k) => 7 * (if k + 1 < m.slots then m.slots - k - 1 else 0) + 4
    case TakingFlag(k) => 7 * (if k + 1 < m.slots then m.slots - k - 1 else 0) + 3
    case Pushing(k) => 7 * (if k + 1 < m.slots then m.slots - k - 1 else 0) + 2
  }

  /** The producer's steps, then the owner's. */
  function ToGo(m: Mode, s: State): nat {
    5 * Behind(m, s.pc) + (if s.destroyed then 0 else if m.event && !s.popped then 3 else if s.merged < s.published then 2 else 1)
  }

  /** A step toward the destruction of the page, if it is not destroyed yet. */
  function NextStep(m: Mode, s: State): Step {
    if s.pc != Finished then Produce else if m.event && !s.popped then Pop else if s.merged < s.published then Drain else Check
  }

  lemma GoesOn(m: Mode, s: State)
    requires Inv(m, s) && !(s.destroyed && s.pc == Finished)
    ensures Enabled(m, s, NextStep(m, s)) && ToGo(m, Apply(m, s, NextStep(m, s))) < ToGo(m, s)
  {}

  /** From every state that a run in a safe mode can reach, some schedule lets the
      producer finish and the owner destroy the page. */
  lemma {:induction false} CanBeDestroyed(m: Mode, s: State) returns (es: seq<Step>)
    requires Inv(m, s)
    ensures CanRun(m, s, es) && Run(m, s, es).destroyed && Run(m, s, es).pc == Finished
    decreases ToGo(m, s)
  {
    hide Inv, Apply, Enabled, ToGo;
    if s.destroyed && s.pc == Finished {
      es := [];
    } else {
      GoesOn(m, s);
      var e := NextStep(m, s);
      StepInv(m, s, e);
      var rest := CanBeDestroyed(m, Apply(m, s, e));
      es := [e] + rest;
      RunFirst(m, s, e, rest);
    }
  }

  lemma {:induction false} RunFirst(m: Mode, s: State, e: Step, es: seq<Step>)
    requires Enabled(m, s, e) && CanRun(m, Apply(m, s, e), es)
    ensures CanRun(m, s, [e] + es) && Run(m, s, [e] + es) == Run(m, Apply(m, s, e), es)
    decreases |es|
  {
    hide Enabled, Apply;
    if es == [] {
      assert [e] + es == [e] && [e][..0] == [];
    } else {
      RunFirst(m, s, e, es[..|es| - 1]);
      assert ([e] + es)[..|es|] == [e] + es[..|es| - 1];
    }
  }

  /** The checks that found the page not idle. */
  function Failures(m: Mode, es: seq<Step>): nat
    requires CanRun(m, Init(m), es)
    decreases |es|
  {
    if es == [] then 0
    else Failures(m, es[..|es| - 1]) + (if es[|es| - 1] == Check && !LooksIdle(m, Run(m, Init(m), es[..|es| - 1])) then 1 else 0)
  }

  /** Each of them is counted, in every mode. */
  lemma {:induction false} MissesAreCounted(m: Mode, es: seq<Step>)
    requires CanRun(m, Init(m), es)
    ensures Run(m, Init(m), es).misses == Failures(m, es)
    decreases |es|
  {
    hide Enabled, Apply;
    if es != [] {
      MissesAreCounted(m, es[..|es| - 1]);
      CheckCounts(m, Run(m, Init(m), es[..|es| - 1]), es[|es| - 1]);
    }
  }

  lemma CheckCounts(m: Mode, s: State, e: Step)
    requires Enabled(m, s, e)
    ensures Apply(m, s, e).misses == s.misses + (if e == Check && !LooksIdle(m, s) then 1 else 0)
  {}

  predicate Leads(m: Mode, es: seq<Step>, s: State) {
    CanRun(m, Init(m), es) && Run(m, Init(m), es) == s
  }

  lemma Then(m: Mode, es: seq<Step>, s: State, e: Step) returns (longer: seq<Step>)
    requires Leads(m, es, s) && Enabled(m, s, e)
    ensures Leads(m, longer, Apply(m, s, e))
  {
    longer := es + [e];
    assert longer[..|es|] == es;
  }

  /** A polled page after its first `j` frees. */
  function Polled(m: Mode, j: nat): State {
    Init(m).(pc := if j < m.slots then Publishing(j) else ReadingToken, published := j)
  }

  lemma {:induction false} FreesAll(m: Mode, j: nat) returns (es: seq<Step>)
    requires !m.event && 0 < m.slots && j <= m.slots
    ensures Leads(m, es, Polled(m, j))
  {
    if j == 0 {
      es := [];
    } else {
      es := FreesAll(m, j - 1);
      es := Then(m, es, Polled(m, j - 1), Produce);
    }
  }

  /** A polled page without the flag is destroyed between the last free and the
      producer's read of its owner token. */
  lemma UnguardedTouch(m: Mode) returns (es: seq<Step>)
    requires m.slots > 0 && !m.guard && !m.event
    ensures CanRun(m, Init(m), es) && Run(m, Init(m), es).touchedLate
  {
    var s := Polled(m, m.slots);
    es := FreesAll(m, m.slots);
    es := Then(m, es, s, Drain);
    s := s.(merged := m.slots);
    es := Then(m, es, s, Check);
    s := s.(destroyed := true);
    es := Then(m, es, s, Produce);
  }

  /** The producer can touch a destroyed page exactly if the page is polled and
      the owner does not wait for the flag. */
  lemma SafeIff(m: Mode)
    requires m.slots > 0
    ensures (forall es :: CanRun(m, Init(m), es) ==> !Run(m, Init(m), es).touchedLate) <==> m.guard || m.event
  {
    if m.guard || m.event {
      forall es | CanRun(m, Init(m), es) ensures !Run(m, Init(m), es).touchedLate { SafeModesAreSafe(m, es); }
    } else {
      var es := UnguardedTouch(m);
    }
  }
}
