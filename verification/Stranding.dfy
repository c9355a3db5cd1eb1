/** Which retired pages can ever be reclaimed or reused.

    A popped candidate that turns out to have nothing to offer is left in
    `retired` for a later sweep. The sweep, however, acts on a page only after
    winning its flag, and that flag went down when the candidate was pushed and
    is raised again only by a new eviction. So such a page never leaves
    `retired`, whatever happens to its slots. */
module Stranding {
  import opened ReadyProtocol
  import opened ReadyInvariant
  import opened ReadySafety

  ghost predicate Stranded(s: State, p: PageId) {
    p in s.pages && s.pages[p].kind == InRetired && !InHandshake(s, p) && !HoldsPage(s, p)
  }

  lemma StrandedStep(s: State, e: Event, p: PageId)
    requires ListsOk(s) && HoldOk(s) && Enabled(s, e) && Stranded(s, p)
    ensures Stranded(Apply(s, e), p)
  {
    var s' := Apply(s, e);
    OnlyReclaimRemoves(s, e);
    TouchesOnlyHeld(s, e, p);
    forall t | t in s'.calls && Winning(s'.calls[t]) ensures s'.calls[t].page != p {
      if s'.calls[t].page == p {
        assert WinsFor(s', t, p);
        WinStep(s, e, t, p);
      }
    }
    if p in s'.ready { ReadyStep(s, e, p); }
  }

  lemma TouchesOnlyHeld(s: State, e: Event, p: PageId)
    requires ListsOk(s) && HoldOk(s) && Enabled(s, e)
    requires p in s.pages && s.pages[p].kind == InRetired && !s.pages[p].flag && p !in s.ready && !HoldsPage(s, p)
    ensures p in Apply(s, e).pages && Apply(s, e).pages[p].kind == InRetired && !Apply(s, e).pages[p].flag && !HoldsPage(Apply(s, e), p)
  {}

  /** A stranded page stays in `retired` through every run, of the owner and of
      any number of other threads. */
  lemma {:induction false} StrandedForever(s: State, es: seq<Event>, p: PageId)
    requires Inv(s) && CanRun(s, es) && Stranded(s, p)
    ensures Stranded(Run(s, es), p) && p in Run(s, es).retired
    decreases |es|
  {
    if es != [] {
      StrandedForever(s, es[..|es| - 1], p);
      RunInv(s, es[..|es| - 1]);
      StrandedStep(Run(s, es[..|es| - 1]), es[|es| - 1], p);
    }
    RunInv(s, es);
  }

  // The other direction: any other retired page has a run on which it leaves.

  lemma RunCons(s: State, e: Event, es: seq<Event>)
    requires Enabled(s, e) && CanRun(Apply(s, e), es)
    ensures CanRun(s, [e] + es) && Run(s, [e] + es) == Run(Apply(s, e), es)
  {
    RunOne(s, e);
    RunAppend(s, [e], es);
  }

  lemma FreshTid(busy: set<Tid>) returns (t: Tid)
    ensures t !in busy
    ensures forall u :: u in busy ==> u < t
  {
    if busy == {} {
      t := 0;
    } else {
      var u :| u in busy;
      var t' := FreshTid(busy - {u});
      assert forall v :: v in busy ==> v == u || v in busy - {u};
      t := if u < t' then t' else u + 1;
    }
  }

  /** What a remote free of a slot of `p` leaves alone. */
  ghost predicate OnlyRemote(s: State, s': State, p: PageId)
    requires p in s.pages
  {
    && s'.hold == s.hold && s'.active == s.active && s'.retired == s.retired
    && p in s'.pages && s'.pages[p].kind == s.pages[p].kind
  }

  function Rank(pc: Pc): nat {
    match pc
    case AtLoadFlag => 5 case AtDecrement => 4 case AtTakeFlag => 3
    case AtSetOnStack => 2 case AtPush => 1 case AtPublish => 0
  }

  lemma NoteKeeps(s: State, t: Tid)
    requires Enabled(s, Note(t))
    ensures var s' := Apply(s, Note(t)); var c := s.calls[t];
      && OnlyRemote(s, s', c.page) && t in s'.calls && s'.calls[t].page == c.page && s'.calls[t].slot == c.slot
      && s'.pages[c.page].slots == s.pages[c.page].slots
      && Rank(s'.calls[t].pc) < Rank(c.pc)
      && (Winning(c) ==> Winning(s'.calls[t]) || c.page in s'.ready)
      && (forall q :: q in s.ready ==> q in s'.ready)
      && (s.pages[c.page].flag ==> s'.pages[c.page].flag || Winning(s'.calls[t]))
  {}

  lemma PublishKeeps(s: State, t: Tid)
    requires CanPublish(s, t)
    ensures var s' := DoPublish(s, t, 0); var c := s.calls[t];
      && OnlyRemote(s, s', c.page) && c.slot < |s'.pages[c.page].slots| && s'.pages[c.page].slots[c.slot] == Published(0)
      && s'.ready == s.ready && s'.pages[c.page].flag == s.pages[c.page].flag
  {}

  /** Lets one remote free run to its end. */
  lemma {:induction false} Finish(s: State, t: Tid) returns (es: seq<Event>)
    requires t in s.calls && CallOk(s, t)
    ensures CanRun(s, es) && OnlyRemote(s, Run(s, es), s.calls[t].page)
    ensures s.calls[t].slot < |Run(s, es).pages[s.calls[t].page].slots|
    ensures Run(s, es).pages[s.calls[t].page].slots[s.calls[t].slot] == Published(0)
    ensures Winning(s.calls[t]) ==> s.calls[t].page in Run(s, es).ready
    ensures s.calls[t].page in s.ready ==> s.calls[t].page in Run(s, es).ready
    ensures s.pages[s.calls[t].page].flag ==> s.calls[t].page in Run(s, es).ready || Run(s, es).pages[s.calls[t].page].flag
    decreases Rank(s.calls[t].pc)
  {
    if s.calls[t].pc == AtPublish {
      PublishKeeps(s, t);
      RunOne(s, Publish(t, 0));
      es := [Publish(t, 0)];
    } else {
      NoteKeeps(s, t);
      var rest := Finish(Apply(s, Note(t)), t);
      RunCons(s, Note(t), rest);
      es := [Note(t)] + rest;
    }
  }

  lemma DrainGains(s: State, p: PageId, i: nat)
    requires Inv(s) && p in s.pages && i < |s.pages[p].slots| && s.pages[p].slots[i].Published?
    ensures HasCapacity(DoDrain(s, p, s.pages[p].slots[i].stripe).pages[p])
  {
    CountAll(s.pages[p].slots, s.pages[p].slots[i]);
  }

  /** Some schedule gives a page capacity: free its first slot remotely if it
      is live, let the free that claimed it finish, drain it. */
  lemma GainCapacity(s: State, p: PageId) returns (es: seq<Event>)
    requires Inv(s) && p in s.pages
    ensures CanRun(s, es) && OnlyRemote(s, Run(s, es), p) && HasCapacity(Run(s, es).pages[p])
    ensures p in s.ready || s.pages[p].flag ==> p in Run(s, es).ready || Run(s, es).pages[p].flag
  {
    assert PageOk(s, p);
    match s.pages[p].slots[0]
    case Free =>
      CountAll(s.pages[p].slots, Free);
      assert CanRun(s, []);
      es := [];
    case Published(stripe) =>
      DrainGains(s, p, 0);
      RunOne(s, Drain(p, stripe));
      es := [Drain(p, stripe)];
    case Claimed(t) =>
      assert ClaimsOk(s, p);
      es := FinishAndDrain(s, t);
    case Live =>
      var t := FreshTid(s.calls.Keys);
      StepInv(s, Claim(t, p, 0));
      var rest := FinishAndDrain(DoClaim(s, t, p, 0), t);
      RunCons(s, Claim(t, p, 0), rest);
      es := [Claim(t, p, 0)] + rest;
  }

  lemma FinishAndDrain(s: State, t: Tid) returns (es: seq<Event>)
    requires Inv(s) && t in s.calls && s.calls[t].page in s.pages
    ensures CanRun(s, es) && OnlyRemote(s, Run(s, es), s.calls[t].page) && HasCapacity(Run(s, es).pages[s.calls[t].page])
    ensures s.calls[t].page in s.ready || s.pages[s.calls[t].page].flag ==> s.calls[t].page in Run(s, es).ready || Run(s, es).pages[s.calls[t].page].flag
  {
    var p, i := s.calls[t].page, s.calls[t].slot;
    assert CallOk(s, t);
    es := Finish(s, t);
    RunInv(s, es);
    var mid := Run(s, es);
    DrainGains(mid, p, i);
    RunOne(mid, Drain(p, 0));
    RunAppend(s, es, [Drain(p, 0)]);
    es := es + [Drain(p, 0)];
  }

  /** `p` and everything the handshake knows about it are as before. */
  ghost predicate Untouched(s: State, s': State, p: PageId) {
    p in s.pages && p in s'.pages && s'.pages[p] == s.pages[p] && s'.ready == s.ready && s'.calls == s.calls
  }

  lemma SettleDetached(s: State, p: PageId) returns (es: seq<Event>)
    requires Inv(s) && s.hold.Detached? && p in s.pages && p != s.hold.page
    ensures CanRun(s, es) && Untouched(s, Run(s, es), p) && Run(s, es).hold == Nothing && Run(s, es).active == s.active
  {
    if Idle(s.pages[s.hold.page]) {
      RunOne(s, Reclaim);
      es := [Reclaim];
    } else {
      assert PageOk(s, s.hold.page);
      RunOne(s, Retire);
      RunOne(DoRetire(s), Mark);
      RunAppend(s, [Retire], [Mark]);
      es := [Retire] + [Mark];
    }
  }

  /** The owner can always finish with the page in its hand. */
  lemma Settle(s: State, p: PageId) returns (es: seq<Event>)
    requires Inv(s) && p in s.pages && !HoldsPage(s, p) && s.hold != Nothing
    ensures CanRun(s, es) && Untouched(s, Run(s, es), p) && Run(s, es).hold == Nothing && |Run(s, es).active| <= SCAN_LIMIT
  {
    if s.hold.Detached? {
      es := SettleDetached(s, p);
    } else if s.hold.Marking? {
      RunOne(s, Mark);
      es := [Mark];
    } else if HasCapacity(s.pages[s.hold.page]) {
      StepInv(s, Unlink);
      var rest := SettleDetached(DoUnlink(s), p);
      RunCons(s, Unlink, rest);
      es := [Unlink] + rest;
    } else {
      assert PageOk(s, s.hold.page);
      RunOne(s, LeaveInPlace);
      es := [LeaveInPlace];
    }
  }

  lemma Quiesce(s: State, p: PageId) returns (es: seq<Event>)
    requires Inv(s) && p in s.pages && s.pages[p].kind == InRetired && !HoldsPage(s, p)
    ensures CanRun(s, es) && Untouched(s, Run(s, es), p) && Run(s, es).hold == Nothing && |Run(s, es).active| <= SCAN_LIMIT
  {
    if s.hold != Nothing {
      es := Settle(s, p);
    } else if |s.active| > SCAN_LIMIT {
      assert s.active[|s.active| - 1] in s.active;
      StepInv(s, EvictTail);
      var rest := Settle(DoEvictTail(s), p);
      RunCons(s, EvictTail, rest);
      es := [EvictTail] + rest;
    } else {
      assert CanRun(s, []);
      es := [];
    }
  }

  /** `es` is a run on which `p` leaves `retired`. */
  ghost predicate Leaves(s: State, es: seq<Event>, p: PageId) {
    CanRun(s, es) && p !in Run(s, es).retired
  }

  lemma LeavesAppend(s: State, a: seq<Event>, b: seq<Event>, p: PageId)
    requires CanRun(s, a) && Leaves(Run(s, a), b, p)
    ensures Leaves(s, a + b, p)
  {
    RunAppend(s, a, b);
  }

  lemma LeavesUnlinked(s: State, p: PageId) returns (es: seq<Event>)
    requires Inv(s) && (s.hold == Popped(p) || s.hold == Cancelled(p)) && HasCapacity(s.pages[p])
    ensures Leaves(s, es, p)
  {
    RunOne(s, Unlink);
    WithoutElements(s.retired, p);
    es := [Unlink];
  }

  lemma LeavesHeld(s: State, p: PageId) returns (es: seq<Event>)
    requires Inv(s) && (s.hold == Popped(p) || s.hold == Cancelled(p))
    ensures Leaves(s, es, p)
  {
    es := GainCapacity(s, p);
    RunInv(s, es);
    var rest := LeavesUnlinked(Run(s, es), p);
    LeavesAppend(s, es, rest, p);
    es := es + rest;
  }

  lemma {:induction false} LeavesReady(s: State, p: PageId) returns (es: seq<Event>)
    requires Inv(s) && p in s.ready && s.hold == Nothing && |s.active| <= SCAN_LIMIT
    ensures Leaves(s, es, p)
    decreases |s.ready|
  {
    assert TakenOk(s, s.ready[0]) && TakenOk(s, p);
    StepInv(s, Pop);
    RunOne(s, Pop);
    var popped := DoPop(s);
    var rest: seq<Event>;
    if s.ready[0] == p {
      rest := LeavesHeld(popped, p);
    } else {
      var settle := Settle(popped, p);
      RunInv(popped, settle);
      rest := LeavesReady(Run(popped, settle), p);
      LeavesAppend(popped, settle, rest, p);
      rest := settle + rest;
    }
    LeavesAppend(s, [Pop], rest, p);
    es := [Pop] + rest;
  }

  lemma LeavesTracked(s: State, p: PageId) returns (es: seq<Event>)
    requires Inv(s) && p in s.pages && s.pages[p].flag && s.hold == Nothing && |s.active| <= SCAN_LIMIT
    ensures Leaves(s, es, p)
  {
    es := GainCapacity(s, p);
    RunInv(s, es);
    var mid := Run(s, es);
    assert PageOk(s, p);
    var rest: seq<Event>;
    if mid.pages[p].flag {
      StepInv(mid, Cancel(p));
      RunOne(mid, Cancel(p));
      rest := LeavesUnlinked(DoCancel(mid, p), p);
      LeavesAppend(mid, [Cancel(p)], rest, p);
      rest := [Cancel(p)] + rest;
    } else {
      rest := LeavesReady(mid, p);
    }
    LeavesAppend(s, es, rest, p);
    es := es + rest;
  }

  lemma LeavesHandshake(s: State, p: PageId) returns (es: seq<Event>)
    requires Inv(s) && InHandshake(s, p) && s.hold == Nothing && |s.active| <= SCAN_LIMIT
    ensures Leaves(s, es, p)
  {
    if s.pages[p].flag {
      es := LeavesTracked(s, p);
    } else if p in s.ready {
      es := LeavesReady(s, p);
    } else {
      var t :| t in s.calls && Winning(s.calls[t]) && s.calls[t].page == p;
      assert CallOk(s, t);
      es := Finish(s, t);
      RunInv(s, es);
      var rest := LeavesReady(Run(s, es), p);
      LeavesAppend(s, es, rest, p);
      es := es + rest;
    }
  }

  /** A retired page that is not stranded leaves `retired` on some run. */
  lemma NotStrandedCanLeave(s: State, p: PageId) returns (es: seq<Event>)
    requires Inv(s) && p in s.retired && !Stranded(s, p)
    ensures Leaves(s, es, p)
  {
    if s.hold == Popped(p) || s.hold == Cancelled(p) {
      es := LeavesHeld(s, p);
    } else if s.hold == Marking(p) {
      StepInv(s, Mark);
      RunOne(s, Mark);
      var rest := LeavesTracked(DoMark(s), p);
      LeavesAppend(s, [Mark], rest, p);
      es := [Mark] + rest;
    } else {
      var quiet := Quiesce(s, p);
      RunInv(s, quiet);
      var mid := Run(s, quiet);
      assert InHandshake(mid, p);
      var rest := LeavesHandshake(mid, p);
      LeavesAppend(s, quiet, rest, p);
      es := quiet + rest;
    }
  }

  /** Exactly the pages in the handshake, or in the owner's hand, can ever be
      reclaimed or reused. */
  lemma RetiredPageCanLeaveIff(s: State, p: PageId)
    requires Inv(s) && p in s.retired
    ensures (exists es :: Leaves(s, es, p)) <==> InHandshake(s, p) || HoldsPage(s, p)
  {
    if InHandshake(s, p) || HoldsPage(s, p) {
      var es := NotStrandedCanLeave(s, p);
    } else {
      forall es | CanRun(s, es) ensures !Leaves(s, es, p) { StrandedForever(s, es, p); }
    }
  }

  /** Every false positive strands its page: leaving a popped candidate in
      place is the last thing that ever happens to its list membership. */
  lemma FalsePositiveStrands(s: State, es: seq<Event>)
    requires Inv(s) && CanLeaveInPlace(s) && CanRun(DoLetGo(s), es)
    ensures s.hold.page in Run(DoLetGo(s), es).retired
  {
    var p := s.hold.page;
    assert PageOk(s, p);
    forall t | t in s.calls && Winning(s.calls[t]) ensures s.calls[t].page != p { assert WinnerOk(s, t); }
    forall q | q in s.ready ensures q != p { assert TakenOk(s, q); }
    StepInv(s, LeaveInPlace);
    StrandedForever(DoLetGo(s), es, p);
  }

  /** A sweep that finds a retired page idle and not on the stack loses the
      cancel race exactly when the page is stranded: on such a page no remote
      free is left that could be the winner. */
  lemma IdleCancelFailsIffStranded(s: State, p: PageId)
    requires Inv(s) && p in s.retired && s.hold == Nothing && Idle(s.pages[p]) && !s.pages[p].onStack
    ensures !s.pages[p].flag <==> Stranded(s, p)
  {
    assert PageOk(s, p);
    CountAll(s.pages[p].slots, Free);
    forall t | t in s.calls ensures s.calls[t].page != p { assert CallOk(s, t); }
  }

  // It does happen: a run from the empty class to a page that is completely
  // free and yet stranded.

  /** `n + 1` one-slot pages in `active`, page 0 last and in use. */
  ghost predicate Filled(s: State, n: nat) {
    && s.hold == Nothing && s.ready == [] && s.calls == map[] && s.retired == []
    && (forall p :: p in s.pages ==> p <= n)
    && |s.active| == n + 1 && s.active[n] == 0
    && 0 in s.pages && s.pages[0] == Page(InActive, [Live], 0, 1, false, 0, false, 0)
  }

  lemma {:induction false} Fill(n: nat) returns (es: seq<Event>)
    requires n <= SCAN_LIMIT
    ensures CanRun(INIT, es) && Filled(Run(INIT, es), n)
  {
    if n == 0 {
      var s1 := DoCreate(INIT, 0, 1, 1);
      var s2 := DoActivate(s1);
      RunOne(s2, Alloc(0, 0));
      RunCons(s1, Activate, [Alloc(0, 0)]);
      RunCons(INIT, Create(0, 1, 1), [Activate] + [Alloc(0, 0)]);
      es := [Create(0, 1, 1)] + ([Activate] + [Alloc(0, 0)]);
    } else {
      var before := Fill(n - 1);
      var s := Run(INIT, before);
      var s1 := DoCreate(s, n, 1, 1);
      RunOne(s1, Activate);
      RunCons(s, Create(n, 1, 1), [Activate]);
      RunAppend(INIT, before, [Create(n, 1, 1)] + [Activate]);
      es := before + ([Create(n, 1, 1)] + [Activate]);
    }
  }

  /** The page is evicted and tracked, and thread 0 claims its slot. */
  lemma TrackAndClaim(s: State) returns (s': State, es: seq<Event>)
    requires Filled(s, SCAN_LIMIT)
    ensures CanRun(s, es) && Run(s, es) == s'
    ensures s'.hold == Nothing && s'.ready == [] && |s'.active| == SCAN_LIMIT && s'.calls == map[0 := Call(0, 0, AtLoadFlag)]
    ensures 0 in s'.pages && s'.pages[0] == Page(InRetired, [Claimed(0)], 0, 1, true, 1, false, 1)
  {
    var s1 := DoEvictTail(s);
    var s2 := DoRetire(s1);
    var s3 := DoMark(s2);
    s' := DoClaim(s3, 0, 0, 0);
    RunOne(s3, Claim(0, 0, 0));
    RunCons(s2, Mark, [Claim(0, 0, 0)]);
    RunCons(s1, Retire, [Mark] + [Claim(0, 0, 0)]);
    RunCons(s, EvictTail, [Retire] + ([Mark] + [Claim(0, 0, 0)]));
    es := [EvictTail] + ([Retire] + ([Mark] + [Claim(0, 0, 0)]));
  }

  /** The last free's note finds the page tracked and counts it down to zero. */
  lemma NoteToZero(s: State) returns (s': State, es: seq<Event>)
    requires s.calls == map[0 := Call(0, 0, AtLoadFlag)]
    requires 0 in s.pages && s.pages[0] == Page(InRetired, [Claimed(0)], 0, 1, true, 1, false, 1)
    ensures CanRun(s, es) && Run(s, es) == s'
    ensures s'.hold == s.hold && s'.active == s.active && s'.ready == s.ready && s'.calls == map[0 := Call(0, 0, AtTakeFlag)]
    ensures 0 in s'.pages && s'.pages[0] == Page(InRetired, [Claimed(0)], 0, 1, true, 0, false, 1)
  {
    var s1 := DoLoadFlag(s, 0);
    s' := DoDecrement(s1, 0);
    RunOne(s1, Note(0));
    RunCons(s, Note(0), [Note(0)]);
    es := [Note(0)] + [Note(0)];
  }

  /** It wins the flag and pushes the page. */
  lemma NoteToPush(s: State) returns (s': State, es: seq<Event>)
    requires s.calls == map[0 := Call(0, 0, AtTakeFlag)] && s.ready == []
    requires 0 in s.pages && s.pages[0] == Page(InRetired, [Claimed(0)], 0, 1, true, 0, false, 1)
    ensures CanRun(s, es) && Run(s, es) == s'
    ensures s'.hold == s.hold && s'.active == s.active && s'.ready == [0] && s'.calls == map[0 := Call(0, 0, AtPublish)]
    ensures 0 in s'.pages && s'.pages[0] == Page(InRetired, [Claimed(0)], 0, 1, false, 0, true, 1)
  {
    var s1 := DoTakeFlag(s, 0);
    var s2 := DoSetOnStack(s1, 0);
    s' := DoPush(s2, 0);
    RunOne(s2, Note(0));
    RunCons(s1, Note(0), [Note(0)]);
    RunCons(s, Note(0), [Note(0)] + [Note(0)]);
    es := [Note(0)] + ([Note(0)] + [Note(0)]);
  }

  /** The owner pops the page before the slot is published; then it is. */
  lemma PopTooEarly(s: State) returns (s': State, es: seq<Event>)
    requires s.hold == Nothing && |s.active| <= SCAN_LIMIT && s.ready == [0] && s.calls == map[0 := Call(0, 0, AtPublish)]
    requires 0 in s.pages && s.pages[0] == Page(InRetired, [Claimed(0)], 0, 1, false, 0, true, 1)
    ensures CanRun(s, es) && Run(s, es) == s' && Stranded(s', 0) && Idle(s'.pages[0])
  {
    var s1 := DoPop(s);
    var s2 := DoLetGo(s1);
    var s3 := DoPublish(s2, 0, 0);
    s' := DoDrain(s3, 0, 0);
    assert s3.pages[0].slots == [Published(0)];
    CountAll([Published(0)], Published(0));
    RunOne(s3, Drain(0, 0));
    RunCons(s2, Publish(0, 0), [Drain(0, 0)]);
    RunCons(s1, LeaveInPlace, [Publish(0, 0)] + [Drain(0, 0)]);
    RunCons(s, Pop, [LeaveInPlace] + ([Publish(0, 0)] + [Drain(0, 0)]));
    es := [Pop] + ([LeaveInPlace] + ([Publish(0, 0)] + [Drain(0, 0)]));
  }

  /** A reachable state in which every slot of a retired page is free and the
      page can never be reclaimed. */
  lemma IdlePageStrandedReachably() returns (es: seq<Event>, p: PageId)
    ensures CanRun(INIT, es) && Stranded(Run(INIT, es), p) && Idle(Run(INIT, es).pages[p])
  {
    p := 0;
    es := Fill(SCAN_LIMIT);
    var s1, es1 := TrackAndClaim(Run(INIT, es));
    RunAppend(INIT, es, es1);
    var s2, es2 := NoteToZero(s1);
    RunAppend(INIT, es + es1, es2);
    var s3, es3 := NoteToPush(s2);
    RunAppend(INIT, es + es1 + es2, es3);
    var s4, es4 := PopTooEarly(s3);
    RunAppend(INIT, es + es1 + es2 + es3, es4);
    es := es + es1 + es2 + es3 + es4;
  }
}
