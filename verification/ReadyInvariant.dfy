/** What every interleaving of owner moves and remote frees keeps. */
module ReadyInvariant {
  import opened Basics
  import opened ReadyProtocol

  /** The call has won the flag of its page and is about to push the page. */
  predicate Winning(c: Call) {
    c.pc == AtSetOnStack || c.pc == AtPush
  }

  predicate HoldsPage(s: State, p: PageId) {
    s.hold != Nothing && s.hold.page == p
  }

  /** The lists hold exactly the pages whose kind says so, once each, and a
      page in neither list is the one in the owner's hand. */
  ghost predicate ListsOk(s: State) {
    && NoDup(s.active) && NoDup(s.retired)
    && (forall p :: p in s.active <==> p in s.pages && s.pages[p].kind == InActive)
    && (forall p :: p in s.retired <==> p in s.pages && s.pages[p].kind == InRetired)
    && |s.active| <= (if s.hold == Nothing then SCAN_LIMIT + 1 else SCAN_LIMIT)
  }

  predicate HoldOk(s: State) {
    match s.hold
    case Nothing => true
    case Detached(p) => p in s.pages && s.pages[p].kind == InNone
    case Cancelled(p) => p in s.pages && s.pages[p].kind == InRetired && s.pages[p].readyGen == s.pages[p].gen && HasCapacity(s.pages[p])
    case _ => s.hold.page in s.pages && s.pages[s.hold.page].kind == InRetired && s.pages[s.hold.page].readyGen == s.pages[s.hold.page].gen
  }

  predicate PageOk(s: State, p: PageId)
    requires p in s.pages
  {
    var page := s.pages[p];
    && 0 < |page.slots| < WORD
    && page.freeCount == Count(page.slots, Free)
    && (page.kind == InNone ==> s.hold == Detached(p))
    && (page.flag ==> page.kind == InRetired && !page.onStack && !HoldsPage(s, p) && page.readyGen == page.gen)
    && (page.kind != InRetired || HoldsPage(s, p) ==> !page.onStack)
  }

  /** A claimed slot belongs to the one remote free that claimed it. */
  ghost predicate ClaimsOk(s: State, p: PageId)
    requires p in s.pages
  {
    forall i :: 0 <= i < |s.pages[p].slots| && s.pages[p].slots[i].Claimed? ==>
      s.pages[p].slots[i].tid in s.calls && s.calls[s.pages[p].slots[i].tid].page == p && s.calls[s.pages[p].slots[i].tid].slot == i
  }

  /** A page that is on the ready stack, or about to be pushed, is retired,
      taken by nobody else, and of the generation it was marked with. */
  predicate TakenOk(s: State, p: PageId) {
    p in s.pages && s.pages[p].kind == InRetired && !s.pages[p].flag && !HoldsPage(s, p) && s.pages[p].readyGen == s.pages[p].gen
  }

  ghost predicate ReadyOk(s: State) {
    && NoDup(s.ready)
    && forall p :: p in s.ready ==> TakenOk(s, p) && s.pages[p].onStack
  }

  predicate CallOk(s: State, t: Tid)
    requires t in s.calls
  {
    var c := s.calls[t];
    && c.page in s.pages
    && c.slot < |s.pages[c.page].slots|
    && s.pages[c.page].slots[c.slot] == Claimed(t)
  }

  predicate WinnerOk(s: State, t: Tid)
    requires t in s.calls && Winning(s.calls[t])
  {
    var c := s.calls[t];
    TakenOk(s, c.page) && c.page !in s.ready && s.pages[c.page].onStack == (c.pc == AtPush)
  }

  ghost predicate OneWinner(s: State) {
    forall t, u :: t in s.calls && u in s.calls && Winning(s.calls[t]) && Winning(s.calls[u]) && s.calls[t].page == s.calls[u].page ==> t == u
  }

  /** The page in the owner's hand, and every page's own fields. */
  ghost predicate PageInv(s: State) {
    HoldOk(s) && forall p :: p in s.pages ==> PageOk(s, p)
  }

  /** Remote frees and the slots they have claimed match one to one. */
  ghost predicate SlotInv(s: State) {
    (forall p :: p in s.pages ==> ClaimsOk(s, p)) && (forall t :: t in s.calls ==> CallOk(s, t))
  }

  /** The ready stack and the notes that are about to push onto it. */
  ghost predicate ReadyInv(s: State) {
    ReadyOk(s) && OneWinner(s) && forall t :: t in s.calls && Winning(s.calls[t]) ==> WinnerOk(s, t)
  }

  ghost predicate Inv(s: State) {
    ListsOk(s) && PageInv(s) && SlotInv(s) && ReadyInv(s)
  }

  lemma {:induction false} CountUpdate(slots: seq<Slot>, i: nat, x: Slot, v: Slot)
    requires i < |slots|
    ensures Count(slots[i := x], v) == Count(slots, v) - (if slots[i] == v then 1 else 0) + (if x == v then 1 else 0)
  {
    var n := |slots| - 1;
    if i < n {
      assert slots[i := x][..n] == slots[..n][i := x];
      CountUpdate(slots[..n], i, x, v);
    } else {
      assert slots[i := x][..n] == slots[..n];
    }
  }

  lemma {:induction false} CountMerged(slots: seq<Slot>, stripe: nat)
    ensures Count(Merged(slots, stripe), Free) == Count(slots, Free) + Count(slots, Published(stripe))
  {
    if slots != [] {
      var n := |slots| - 1;
      assert Merged(slots, stripe)[..n] == Merged(slots[..n], stripe);
      CountMerged(slots[..n], stripe);
    }
  }

  lemma {:induction false} CountAll(slots: seq<Slot>, v: Slot)
    ensures Count(slots, v) == |slots| <==> forall i :: 0 <= i < |slots| ==> slots[i] == v
    ensures Count(slots, v) > 0 <==> v in slots
  {
    if slots != [] {
      var n := |slots| - 1;
      CountAll(slots[..n], v);
      assert slots == slots[..n] + [slots[n]];
      assert forall i :: 0 <= i < n ==> slots[..n][i] == slots[i];
    }
  }

  lemma {:induction false} CountFresh(n: nat)
    ensures Count(seq(n, i => Free), Free) == n
  {
    CountAll(seq(n, i => Free), Free);
  }

  lemma {:induction false} WithoutElements(xs: seq<PageId>, p: PageId)
    requires NoDup(xs)
    ensures NoDup(Without(xs, p))
    ensures forall q :: q in Without(xs, p) <==> q in xs && q != p
    ensures p in xs ==> |Without(xs, p)| == |xs| - 1
    ensures p !in xs ==> Without(xs, p) == xs
  {
    if xs != [] && xs[0] != p {
      var rest := Without(xs[1..], p);
      WithoutElements(xs[1..], p);
      assert xs == [xs[0]] + xs[1..];
      assert xs[0] !in rest;
      assert forall i :: 0 < i <= |rest| ==> Without(xs, p)[i] == rest[i - 1] && rest[i - 1] in rest;
    } else if xs != [] {
      assert xs == [p] + xs[1..];
    }
  }

  lemma InitInv()
    ensures Inv(INIT)
  {}

  // Each step keeps the two lists.

  predicate MovesLists(e: Event) {
    e.Create? || e.Activate? || e.MoveToFront? || e.EvictTail? || e.Reclaim? || e.Retire? || e.Unlink?
  }

  lemma KeepsKinds(s: State, e: Event)
    requires Enabled(s, e) && !MovesLists(e)
    ensures Apply(s, e).active == s.active && Apply(s, e).retired == s.retired && Apply(s, e).pages.Keys == s.pages.Keys
    ensures forall p :: p in s.pages ==> Apply(s, e).pages[p].kind == s.pages[p].kind
    ensures Apply(s, e).hold == Nothing || Apply(s, e).hold == s.hold || |s.active| <= SCAN_LIMIT
  {}

  /** A step that moves no page between lists keeps them. */
  lemma ListFrame(s: State, s': State)
    requires ListsOk(s) && s'.active == s.active && s'.retired == s.retired && s'.pages.Keys == s.pages.Keys
    requires forall p :: p in s.pages ==> s'.pages[p].kind == s.pages[p].kind
    requires s'.hold == Nothing || |s.active| <= SCAN_LIMIT
    ensures ListsOk(s')
  {}

  lemma CreateLists(s: State, p: PageId, n: nat, gen: nat)
    requires ListsOk(s) && HoldOk(s) && CanCreate(s, p, n)
    ensures ListsOk(DoCreate(s, p, n, gen))
  {}

  lemma ActivateLists(s: State)
    requires ListsOk(s) && HoldOk(s) && CanActivate(s)
    ensures ListsOk(DoActivate(s))
  {}

  lemma MoveToFrontLists(s: State, p: PageId)
    requires ListsOk(s) && HoldOk(s) && s.hold == Nothing && p in s.active
    ensures ListsOk(DoMoveToFront(s, p))
  {
    WithoutElements(s.active, p);
  }

  lemma EvictTailLists(s: State)
    requires ListsOk(s) && HoldOk(s) && CanEvictTail(s)
    ensures ListsOk(DoEvictTail(s))
  {}

  lemma ReclaimLists(s: State)
    requires ListsOk(s) && HoldOk(s) && CanReclaim(s)
    ensures ListsOk(DoReclaim(s))
  {}

  lemma RetireLists(s: State)
    requires ListsOk(s) && HoldOk(s) && CanRetire(s)
    ensures ListsOk(DoRetire(s))
  {}

  lemma UnlinkLists(s: State)
    requires ListsOk(s) && HoldOk(s) && CanUnlink(s)
    ensures ListsOk(DoUnlink(s))
  {
    WithoutElements(s.retired, s.hold.page);
  }

  // Each step keeps every page's fields and the owner's hand.

  lemma CreatePage(s: State, p: PageId, n: nat, gen: nat)
    requires PageInv(s) && CanCreate(s, p, n)
    ensures PageInv(DoCreate(s, p, n, gen))
  {
    CountFresh(n);
  }

  lemma ActivatePage(s: State)
    requires PageInv(s) && CanActivate(s)
    ensures PageInv(DoActivate(s))
  {}

  lemma AllocPage(s: State, p: PageId, i: nat)
    requires PageInv(s) && CanAlloc(s, p, i)
    ensures PageInv(DoAlloc(s, p, i))
  {
    CountUpdate(s.pages[p].slots, i, Live, Free);
  }

  lemma LocalFreePage(s: State, p: PageId, i: nat)
    requires PageInv(s) && CanLocalFree(s, p, i)
    ensures PageInv(DoLocalFree(s, p, i))
  {
    CountUpdate(s.pages[p].slots, i, Free, Free);
  }

  lemma MoveToFrontPage(s: State, p: PageId)
    requires PageInv(s) && s.hold == Nothing && p in s.active
    ensures PageInv(DoMoveToFront(s, p))
  {}

  lemma DrainPage(s: State, p: PageId, stripe: nat)
    requires PageInv(s) && p in s.pages
    ensures PageInv(DoDrain(s, p, stripe))
  {
    CountMerged(s.pages[p].slots, stripe);
  }

  lemma EvictTailPage(s: State)
    requires ListsOk(s) && PageInv(s) && CanEvictTail(s)
    ensures PageInv(DoEvictTail(s))
  {}

  lemma ReclaimPage(s: State)
    requires PageInv(s) && CanReclaim(s)
    ensures PageInv(DoReclaim(s))
  {}

  lemma RetirePage(s: State)
    requires PageInv(s) && CanRetire(s)
    ensures PageInv(DoRetire(s))
  {}

  lemma MarkPage(s: State)
    requires PageInv(s) && CanMark(s)
    ensures PageInv(DoMark(s))
  {}

  lemma PopPage(s: State)
    requires PageInv(s) && ReadyInv(s) && CanPop(s)
    ensures PageInv(DoPop(s))
  {}

  lemma LetGoPage(s: State)
    requires PageInv(s) && s.hold.Popped?
    ensures PageInv(DoLetGo(s))
  {}

  lemma CancelPage(s: State, p: PageId)
    requires PageInv(s) && CanCancel(s, p)
    ensures PageInv(DoCancel(s, p))
  {}

  lemma UnlinkPage(s: State)
    requires PageInv(s) && CanUnlink(s)
    ensures PageInv(DoUnlink(s))
  {}

  lemma ClaimPage(s: State, t: Tid, p: PageId, i: nat)
    requires PageInv(s) && CanClaim(s, t, p, i)
    ensures PageInv(DoClaim(s, t, p, i))
  {
    CountUpdate(s.pages[p].slots, i, Claimed(t), Free);
  }

  lemma LoadFlagPage(s: State, t: Tid)
    requires PageInv(s) && At(s, t, AtLoadFlag)
    ensures PageInv(DoLoadFlag(s, t))
  {}

  lemma DecrementPage(s: State, t: Tid)
    requires PageInv(s) && At(s, t, AtDecrement)
    ensures PageInv(DoDecrement(s, t))
  {}

  lemma TakeFlagPage(s: State, t: Tid)
    requires PageInv(s) && At(s, t, AtTakeFlag)
    ensures PageInv(DoTakeFlag(s, t))
  {}

  lemma SetOnStackPage(s: State, t: Tid)
    requires PageInv(s) && ReadyInv(s) && At(s, t, AtSetOnStack)
    ensures PageInv(DoSetOnStack(s, t))
  {}

  lemma PushPage(s: State, t: Tid)
    requires PageInv(s) && At(s, t, AtPush)
    ensures PageInv(DoPush(s, t))
  {}

  lemma PublishPage(s: State, t: Tid, stripe: nat)
    requires PageInv(s) && SlotInv(s) && CanPublish(s, t)
    ensures PageInv(DoPublish(s, t, stripe))
  {
    CountUpdate(s.pages[s.calls[t].page].slots, s.calls[t].slot, Published(stripe), Free);
  }

  // Each step keeps claimed slots and remote frees matched.

  predicate ChangesSlots(e: Event) {
    e.Create? || e.Alloc? || e.LocalFree? || e.Drain? || e.Claim? || e.Publish? || e.Reclaim?
  }

  lemma KeepsSlots(s: State, e: Event)
    requires Enabled(s, e) && !ChangesSlots(e)
    ensures Apply(s, e).pages.Keys == s.pages.Keys && Apply(s, e).calls.Keys == s.calls.Keys
    ensures forall p :: p in s.pages ==> Apply(s, e).pages[p].slots == s.pages[p].slots
    ensures forall t :: t in s.calls ==> Apply(s, e).calls[t].page == s.calls[t].page && Apply(s, e).calls[t].slot == s.calls[t].slot
  {}

  /** A step that changes no slot, and no remote free beyond its next
      operation, keeps them matched. */
  lemma SlotFrame(s: State, s': State)
    requires SlotInv(s)
    requires forall p :: p in s'.pages ==> p in s.pages && s'.pages[p].slots == s.pages[p].slots
    requires forall p :: p in s.pages && p !in s'.pages ==> forall i :: 0 <= i < |s.pages[p].slots| ==> s.pages[p].slots[i] == Free
    requires s'.calls.Keys == s.calls.Keys
    requires forall t :: t in s.calls ==> s'.calls[t].page == s.calls[t].page && s'.calls[t].slot == s.calls[t].slot
    ensures SlotInv(s')
  {}

  lemma CreateSlot(s: State, p: PageId, n: nat, gen: nat)
    requires SlotInv(s) && CanCreate(s, p, n)
    ensures SlotInv(DoCreate(s, p, n, gen))
  {}

  lemma AllocSlot(s: State, p: PageId, i: nat)
    requires SlotInv(s) && CanAlloc(s, p, i)
    ensures SlotInv(DoAlloc(s, p, i))
  {}

  lemma LocalFreeSlot(s: State, p: PageId, i: nat)
    requires SlotInv(s) && CanLocalFree(s, p, i)
    ensures SlotInv(DoLocalFree(s, p, i))
  {}

  lemma DrainSlot(s: State, p: PageId, stripe: nat)
    requires SlotInv(s) && p in s.pages
    ensures SlotInv(DoDrain(s, p, stripe))
  {}

  lemma ClaimSlot(s: State, t: Tid, p: PageId, i: nat)
    requires SlotInv(s) && CanClaim(s, t, p, i)
    ensures SlotInv(DoClaim(s, t, p, i))
  {}

  lemma PublishSlot(s: State, t: Tid, stripe: nat)
    requires SlotInv(s) && CanPublish(s, t)
    ensures SlotInv(DoPublish(s, t, stripe))
  {}

  lemma ReclaimSlot(s: State)
    requires SlotInv(s) && PageInv(s) && CanReclaim(s)
    ensures SlotInv(DoReclaim(s))
  {
    CountAll(s.pages[s.hold.page].slots, Free);
    SlotFrame(s, DoReclaim(s));
  }

  // Each step keeps the ready stack and the winning notes.

  lemma CreateReady(s: State, p: PageId, n: nat, gen: nat)
    requires PageInv(s) && ReadyInv(s) && CanCreate(s, p, n)
    ensures ReadyInv(DoCreate(s, p, n, gen))
  {}

  lemma ActivateReady(s: State)
    requires PageInv(s) && ReadyInv(s) && CanActivate(s)
    ensures ReadyInv(DoActivate(s))
  {}

  lemma AllocReady(s: State, p: PageId, i: nat)
    requires PageInv(s) && ReadyInv(s) && CanAlloc(s, p, i)
    ensures ReadyInv(DoAlloc(s, p, i))
  {}

  lemma LocalFreeReady(s: State, p: PageId, i: nat)
    requires PageInv(s) && ReadyInv(s) && CanLocalFree(s, p, i)
    ensures ReadyInv(DoLocalFree(s, p, i))
  {}

  lemma MoveToFrontReady(s: State, p: PageId)
    requires PageInv(s) && ReadyInv(s) && s.hold == Nothing && p in s.active
    ensures ReadyInv(DoMoveToFront(s, p))
  {}

  lemma DrainReady(s: State, p: PageId, stripe: nat)
    requires PageInv(s) && ReadyInv(s) && p in s.pages
    ensures ReadyInv(DoDrain(s, p, stripe))
  {}

  lemma EvictTailReady(s: State)
    requires ListsOk(s) && PageInv(s) && ReadyInv(s) && CanEvictTail(s)
    ensures ReadyInv(DoEvictTail(s))
  {}

  lemma ReclaimReady(s: State)
    requires PageInv(s) && ReadyInv(s) && CanReclaim(s)
    ensures ReadyInv(DoReclaim(s))
  {}

  lemma RetireReady(s: State)
    requires PageInv(s) && ReadyInv(s) && CanRetire(s)
    ensures ReadyInv(DoRetire(s))
  {}

  lemma MarkReady(s: State)
    requires PageInv(s) && ReadyInv(s) && CanMark(s)
    ensures ReadyInv(DoMark(s))
  {}

  lemma PopReady(s: State)
    requires PageInv(s) && ReadyInv(s) && CanPop(s)
    ensures ReadyInv(DoPop(s))
  {}

  lemma LetGoReady(s: State)
    requires PageInv(s) && ReadyInv(s) && s.hold.Popped?
    ensures ReadyInv(DoLetGo(s))
  {}

  lemma CancelReady(s: State, p: PageId)
    requires PageInv(s) && ReadyInv(s) && CanCancel(s, p)
    ensures ReadyInv(DoCancel(s, p))
  {}

  lemma UnlinkReady(s: State)
    requires PageInv(s) && ReadyInv(s) && CanUnlink(s)
    ensures ReadyInv(DoUnlink(s))
  {}

  lemma ClaimReady(s: State, t: Tid, p: PageId, i: nat)
    requires PageInv(s) && ReadyInv(s) && CanClaim(s, t, p, i)
    ensures ReadyInv(DoClaim(s, t, p, i))
  {}

  lemma LoadFlagReady(s: State, t: Tid)
    requires PageInv(s) && ReadyInv(s) && At(s, t, AtLoadFlag)
    ensures ReadyInv(DoLoadFlag(s, t))
  {}

  lemma DecrementReady(s: State, t: Tid)
    requires PageInv(s) && ReadyInv(s) && At(s, t, AtDecrement)
    ensures ReadyInv(DoDecrement(s, t))
  {}

  lemma TakeFlagReady(s: State, t: Tid)
    requires PageInv(s) && ReadyInv(s) && At(s, t, AtTakeFlag)
    ensures ReadyInv(DoTakeFlag(s, t))
  {}

  lemma SetOnStackReady(s: State, t: Tid)
    requires PageInv(s) && ReadyInv(s) && At(s, t, AtSetOnStack)
    ensures ReadyInv(DoSetOnStack(s, t))
  {}

  lemma PushReady(s: State, t: Tid)
    requires PageInv(s) && ReadyInv(s) && At(s, t, AtPush)
    ensures ReadyInv(DoPush(s, t))
  {}

  lemma PublishReady(s: State, t: Tid, stripe: nat)
    requires PageInv(s) && ReadyInv(s) && CanPublish(s, t)
    ensures ReadyInv(DoPublish(s, t, stripe))
  {}

  lemma StepLists(s: State, e: Event)
    requires Inv(s) && Enabled(s, e)
    ensures ListsOk(Apply(s, e))
  {
    if !MovesLists(e) {
      KeepsKinds(s, e);
      ListFrame(s, Apply(s, e));
    } else {
      match e
      case Create(p, n, gen) => CreateLists(s, p, n, gen);
      case Activate => ActivateLists(s);
      case MoveToFront(p) => MoveToFrontLists(s, p);
      case EvictTail => EvictTailLists(s);
      case Reclaim => ReclaimLists(s);
      case Retire => RetireLists(s);
      case Unlink => UnlinkLists(s);
      case _ =>
    }
  }

  lemma StepPage(s: State, e: Event)
    requires Inv(s) && Enabled(s, e)
    ensures PageInv(Apply(s, e))
  {
    match e
    case Create(p, n, gen) => CreatePage(s, p, n, gen);
    case Activate => ActivatePage(s);
    case Alloc(p, i) => AllocPage(s, p, i);
    case LocalFree(p, i) => LocalFreePage(s, p, i);
    case MoveToFront(p) => MoveToFrontPage(s, p);
    case Drain(p, stripe) => DrainPage(s, p, stripe);
    case EvictTail => EvictTailPage(s);
    case Reclaim => ReclaimPage(s);
    case Retire => RetirePage(s);
    case Mark => MarkPage(s);
    case Pop => PopPage(s);
    case DropStale => LetGoPage(s);
    case LeaveInPlace => LetGoPage(s);
    case Cancel(p) => CancelPage(s, p);
    case Unlink => UnlinkPage(s);
    case Claim(t, p, i) => ClaimPage(s, t, p, i);
    case Note(t) =>
      match s.calls[t].pc {
        case AtLoadFlag => LoadFlagPage(s, t);
        case AtDecrement => DecrementPage(s, t);
        case AtTakeFlag => TakeFlagPage(s, t);
        case AtSetOnStack => SetOnStackPage(s, t);
        case AtPush => PushPage(s, t);
      }
    case Publish(t, stripe) => PublishPage(s, t, stripe);
  }

  lemma StepSlot(s: State, e: Event)
    requires Inv(s) && Enabled(s, e)
    ensures SlotInv(Apply(s, e))
  {
    if !ChangesSlots(e) {
      KeepsSlots(s, e);
      SlotFrame(s, Apply(s, e));
    } else {
      match e
      case Create(p, n, gen) => CreateSlot(s, p, n, gen);
      case Alloc(p, i) => AllocSlot(s, p, i);
      case LocalFree(p, i) => LocalFreeSlot(s, p, i);
      case Drain(p, stripe) => DrainSlot(s, p, stripe);
      case Claim(t, p, i) => ClaimSlot(s, t, p, i);
      case Publish(t, stripe) => PublishSlot(s, t, stripe);
      case Reclaim => ReclaimSlot(s);
      case _ =>
    }
  }

  lemma StepReady(s: State, e: Event)
    requires Inv(s) && Enabled(s, e)
    ensures ReadyInv(Apply(s, e))
  {
    match e
    case Create(p, n, gen) => CreateReady(s, p, n, gen);
    case Activate => ActivateReady(s);
    case Alloc(p, i) => AllocReady(s, p, i);
    case LocalFree(p, i) => LocalFreeReady(s, p, i);
    case MoveToFront(p) => MoveToFrontReady(s, p);
    case Drain(p, stripe) => DrainReady(s, p, stripe);
    case EvictTail => EvictTailReady(s);
    case Reclaim => ReclaimReady(s);
    case Retire => RetireReady(s);
    case Mark => MarkReady(s);
    case Pop => PopReady(s);
    case DropStale => LetGoReady(s);
    case LeaveInPlace => LetGoReady(s);
    case Cancel(p) => CancelReady(s, p);
    case Unlink => UnlinkReady(s);
    case Claim(t, p, i) => ClaimReady(s, t, p, i);
    case Note(t) =>
      match s.calls[t].pc {
        case AtLoadFlag => LoadFlagReady(s, t);
        case AtDecrement => DecrementReady(s, t);
        case AtTakeFlag => TakeFlagReady(s, t);
        case AtSetOnStack => SetOnStackReady(s, t);
        case AtPush => PushReady(s, t);
      }
    case Publish(t, stripe) => PublishReady(s, t, stripe);
  }

  /** No event, owner's or remote, breaks the invariant. */
  lemma StepInv(s: State, e: Event)
    requires Inv(s) && Enabled(s, e)
    ensures Inv(Apply(s, e))
  {
    StepLists(s, e);
    StepPage(s, e);
    StepSlot(s, e);
    StepReady(s, e);
  }

  lemma {:induction false} RunInv(s: State, es: seq<Event>)
    requires Inv(s) && CanRun(s, es)
    ensures Inv(Run(s, es))
    decreases |es|
  {
    if es != [] {
      RunInv(s, es[..|es| - 1]);
      StepInv(Run(s, es[..|es| - 1]), es[|es| - 1]);
    }
  }
}
