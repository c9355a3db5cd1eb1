/** What the class operations rely on while other threads run, and what they
    promise about pages they do not touch. */
module ClassFacts {
  import opened Basics
  import opened ReadyProtocol
  import opened ReadyInvariant
  import opened ReadySafety
  import opened SweepRotation
  import opened PageLists
  import opened ClassCounters

  /** Everything the owner relies on while other threads run: they move no
      page, merge no slot, raise no flag, add no candidate, and cannot touch a
      page whose slots are all free. */
  ghost predicate Quiet(s: State, s': State) {
    && s'.active == s.active && s'.retired == s.retired && s'.hold == s.hold
    && s'.pages.Keys == s.pages.Keys
    && (forall p :: p in s.pages ==> SameOwned(s.pages[p], s'.pages[p]) && s'.pages[p].freeCount == s.pages[p].freeCount)
    && (forall p :: p in s.pages && (Idle(s.pages[p]) || AllBack(s.pages[p].slots)) ==> s'.pages[p] == s.pages[p])
    && (forall p :: p in s.pages ==> SlotsStay(s.pages[p].slots, s'.pages[p].slots))
    && (forall p :: p in s.ready ==> p in s'.ready)
    && Pending(s') <= Pending(s)
  }

  predicate SameOwned(a: Page, b: Page) {
    b.kind == a.kind && |b.slots| == |a.slots| && b.gen == a.gen && b.readyGen == a.readyGen && (b.flag ==> a.flag) && (a.onStack ==> b.onStack)
  }

  /** The owner's events of a run, in order. */
  function Moves(es: seq<Event>): seq<Event> {
    if es == [] then [] else Moves(es[..|es| - 1]) + (if Remote(es[|es| - 1]) then [] else [es[|es| - 1]])
  }

  /** The run goes on from `past`; the owner's events in it are `mine`. */
  predicate Did(past: seq<Event>, es: seq<Event>, mine: seq<Event>) {
    past <= es && Moves(es) == Moves(past) + mine
  }

  lemma DidOne(past: seq<Event>, es: seq<Event>, mine: seq<Event>, e: Event)
    requires Did(past, es, mine)
    ensures Did(past, es + [e], if Remote(e) then mine else mine + [e])
  {
    assert (es + [e])[..|es|] == es;
  }

  lemma DidGoesOn(past: seq<Event>, es: seq<Event>, mine: seq<Event>)
    requires Did(past, es, mine)
    ensures past <= es
  {}

  /** Free and published slots stay what they are. */
  ghost predicate SlotsStay(a: seq<Slot>, b: seq<Slot>) {
    |b| == |a| && forall i :: 0 <= i < |a| && (a[i].Free? || a[i].Published?) ==> b[i] == a[i]
  }

  /** What was published on the first `k` stripes is free now, the rest of what
      was published is still there. */
  ghost predicate DrainedTo(a: seq<Slot>, b: seq<Slot>, k: nat) {
    |b| == |a|
    && (forall i :: 0 <= i < |a| && a[i].Free? ==> b[i].Free?)
    && (forall i :: 0 <= i < |a| && a[i].Published? ==> b[i] == if a[i].stripe < k then Free else a[i])
  }

  /** What was published on stripe `k` is free now, the rest of what was
      published is still there. */
  ghost predicate DrainedAt(a: seq<Slot>, b: seq<Slot>, k: nat) {
    |b| == |a|
    && (forall i :: 0 <= i < |a| && a[i].Free? ==> b[i].Free?)
    && (forall i :: 0 <= i < |a| && a[i].Published? ==> b[i] == if a[i].stripe == k then Free else a[i])
  }

  /** A page whose objects are all back stays so, and nobody takes its flag. */
  predicate StillBack(a: Page, b: Page) {
    AllBack(a.slots) ==> AllBack(b.slots) && b.flag == a.flag
  }

  lemma MergedBack(a: seq<Slot>, k: nat)
    requires AllBack(a)
    ensures AllBack(Merged(a, k))
  {}

  lemma NothingAt(a: seq<Slot>, b: seq<Slot>, k: nat)
    requires SlotsStay(a, b) && Published(k) !in b
    ensures DrainedAt(a, b, k) && Published(k) !in a
  {
    forall i | 0 <= i < |a| ensures a[i] != Published(k) { assert b[i] in b; }
  }

  lemma ExchangedAt(a: seq<Slot>, b: seq<Slot>, k: nat)
    requires SlotsStay(a, b)
    ensures DrainedAt(a, Merged(b, k), k)
    ensures Published(k) !in b ==> Published(k) !in a
  {
    if Published(k) !in b { NothingAt(a, b, k); }
  }

  lemma DrainGoesOn(a: seq<Slot>, b: seq<Slot>, c: seq<Slot>, k: nat)
    requires DrainedTo(a, b, k) && DrainedAt(b, c, k)
    ensures DrainedTo(a, c, k + 1)
    ensures NothingPublished(a, k) && Published(k) !in b ==> NothingPublished(a, k + 1)
  {
    forall i | 0 <= i < |a| && a[i].Published? ensures c[i] == if a[i].stripe < k + 1 then Free else a[i] {}
    if Published(k) !in b {
      forall i | 0 <= i < |a| ensures a[i] != Published(k) { assert b[i] in b; }
    }
  }

  lemma DrainBegins(s: State, p: PageId)
    requires p in s.pages
    ensures DrainedTo(s.pages[p].slots, s.pages[p].slots, 0) && NothingPublished(s.pages[p].slots, 0) && QuietBut(s, s, p)
  {}

  lemma NothingMerged(s: State, p: PageId, k: nat)
    requires p in s.pages && Published(k) !in s.pages[p].slots
    ensures DoDrain(s, p, k) == s
  {
    CountAll(s.pages[p].slots, Published(k));
    assert Merged(s.pages[p].slots, k) == s.pages[p].slots;
  }

  lemma QuietPage(s: State, s': State, p: PageId)
    requires Quiet(s, s') && p in s.pages
    ensures p in s'.pages && SlotsStay(s.pages[p].slots, s'.pages[p].slots) && s'.pages[p].freeCount == s.pages[p].freeCount
    ensures AllBack(s.pages[p].slots) ==> s'.pages[p] == s.pages[p]
    ensures QuietBut(s, s', p)
  {}

  lemma QuietThen(s: State, s': State, s'': State, p: PageId)
    requires Quiet(s, s') && QuietBut(s', s'', p)
    ensures QuietBut(s, s'', p)
  {
    hide Pending, SlotsStay, AllBack;
    forall x | x in s.pages && x != p ensures SlotsStay(s.pages[x].slots, s''.pages[x].slots) { StayTrans(s.pages[x].slots, s'.pages[x].slots, s''.pages[x].slots); }
  }

  lemma QuietButTrans(s: State, s': State, s'': State, p: PageId)
    requires QuietBut(s, s', p) && QuietBut(s', s'', p)
    ensures QuietBut(s, s'', p)
    ensures p in s.pages ==> p in s''.pages
  {
    hide Pending, SlotsStay, AllBack;
    forall x | x in s.pages && x != p ensures SlotsStay(s.pages[x].slots, s''.pages[x].slots) { StayTrans(s.pages[x].slots, s'.pages[x].slots, s''.pages[x].slots); }
  }

  /** No slot is published on any of the first `k` stripes. */
  predicate NothingPublished(a: seq<Slot>, k: nat) {
    forall j :: 0 <= j < k ==> Published(j) !in a
  }

  /** Quiet, except that slots may have been merged into page `a`. */
  ghost predicate QuietBut(s: State, s': State, a: PageId) {
    && s'.active == s.active && s'.retired == s.retired && s'.hold == s.hold
    && s'.pages.Keys == s.pages.Keys
    && (forall p :: p in s.pages ==> SameOwned(s.pages[p], s'.pages[p]) && (p != a ==> s'.pages[p].freeCount == s.pages[p].freeCount))
    && (forall p :: p in s.pages && p != a ==> SlotsStay(s.pages[p].slots, s'.pages[p].slots))
    && (forall p :: p in s.pages && p != a && AllBack(s.pages[p].slots) ==> s'.pages[p] == s.pages[p])
    && (forall p :: p in s.ready ==> p in s'.ready)
    && Pending(s') <= Pending(s)
  }

  /** Pages other than `p` keep every slot that is free or published, and their
      free counts. */
  ghost predicate Elsewhere(s: State, s': State, p: PageId) {
    forall q :: q in s.pages && q != p ==>
      q in s'.pages && SameOwned(s.pages[q], s'.pages[q]) && s'.pages[q].freeCount == s.pages[q].freeCount && SlotsStay(s.pages[q].slots, s'.pages[q].slots)
  }

  lemma QuietElsewhere(s: State, s': State, s'': State, p: PageId)
    requires Quiet(s, s') && Elsewhere(s', s'', p)
    ensures s'.pages.Keys == s.pages.Keys && Elsewhere(s, s'', p)
  {
    hide Pending, SlotsStay, AllBack;
    forall q | q in s.pages && q != p ensures SlotsStay(s.pages[q].slots, s''.pages[q].slots) { StayTrans(s.pages[q].slots, s'.pages[q].slots, s''.pages[q].slots); }
  }

  lemma ElsewhereGone(s: State, s': State, s'': State, p: PageId)
    requires Elsewhere(s, s', p) && s''.pages == s'.pages - {p}
    ensures Elsewhere(s, s'', p)
  {
    hide SlotsStay;
  }

  lemma FreedElsewhere(s: State, s': State, s'': State, p: PageId, i: nat, gone: bool)
    requires CanLocalFree(s, p, i) && s' == DoLocalFree(s, p, i) && if gone then Elsewhere(s', s'', p) else Quiet(s', s'')
    ensures Elsewhere(s, s'', p)
    ensures !gone ==> p in s''.pages && i < |s''.pages[p].slots| && s''.pages[p].slots[i] == Free && s''.pages[p].freeCount == s.pages[p].freeCount + 1
  {}

  lemma QuietAtOnce(s: State)
    ensures Quiet(s, s)
  {}

  lemma QuietTrans(s: State, s': State, s'': State)
    requires Quiet(s, s') && Quiet(s', s'')
    ensures Quiet(s, s'')
  {
    hide Pending, SlotsStay, AllBack;
    forall x | x in s.pages ensures SlotsStay(s.pages[x].slots, s''.pages[x].slots) { StayTrans(s.pages[x].slots, s'.pages[x].slots, s''.pages[x].slots); }
  }

  lemma RemoteQuiet(es: seq<Event>, e: Event)
    requires CanRun(INIT, es) && Enabled(Run(INIT, es), e) && Remote(e)
    ensures Quiet(Run(INIT, es), Apply(Run(INIT, es), e))
  {
    var s := Run(INIT, es);
    ReachableInv(es);
    PendingStep(s, e);
    RemoteFields(s, e);
    forall p | p in s.pages && (Idle(s.pages[p]) || AllBack(s.pages[p].slots)) ensures Apply(s, e).pages[p] == s.pages[p] { RemoteSparesIdle(s, e, p); }
    forall p | p in s.pages ensures SlotsStay(s.pages[p].slots, Apply(s, e).pages[p].slots) { RemoteSlots(s, e, p); }
  }

  lemma RemoteSparesIdle(s: State, e: Event, p: PageId)
    requires Inv(s) && Enabled(s, e) && Remote(e) && p in s.pages && (Idle(s.pages[p]) || AllBack(s.pages[p].slots))
    ensures p in Apply(s, e).pages && Apply(s, e).pages[p] == s.pages[p]
  {
    hide Apply, Inv;
    TouchedIsInUse(s, e);
    RemoteTouchesOne(s, e, p);
  }

  /** The page of a remote step has a slot that is live or claimed. */
  lemma TouchedIsInUse(s: State, e: Event)
    requires Inv(s) && Enabled(s, e) && Remote(e)
    ensures var q := if e.Claim? then e.page else s.calls[e.tid].page;
      q in s.pages && !Idle(s.pages[q]) && !AllBack(s.pages[q].slots)
  {
    hide Apply, Idle, AllBack, PageOk, ListsOk, ReadyInv;
    if e.Claim? {
      assert PageOk(s, e.page);
      SlotInUse(s, e.page, e.slot);
    } else {
      assert CallOk(s, e.tid) && PageOk(s, s.calls[e.tid].page);
      SlotInUse(s, s.calls[e.tid].page, s.calls[e.tid].slot);
    }
  }

  lemma SlotInUse(s: State, q: PageId, i: nat)
    requires q in s.pages && PageOk(s, q) && i < |s.pages[q].slots| && (s.pages[q].slots[i].Live? || s.pages[q].slots[i].Claimed?)
    ensures !Idle(s.pages[q]) && !AllBack(s.pages[q].slots)
  {
    CountAll(s.pages[q].slots, Free);
  }

  lemma RemoteTouchesOne(s: State, e: Event, p: PageId)
    requires Enabled(s, e) && Remote(e) && p in s.pages && p != if e.Claim? then e.page else s.calls[e.tid].page
    ensures p in Apply(s, e).pages && Apply(s, e).pages[p] == s.pages[p]
  {}

  lemma RemoteSlots(s: State, e: Event, p: PageId)
    requires Inv(s) && Enabled(s, e) && Remote(e) && p in s.pages
    ensures p in Apply(s, e).pages && SlotsStay(s.pages[p].slots, Apply(s, e).pages[p].slots)
  {
    if e.Note? {
      KeepsSlots(s, e);
    } else if p != if e.Claim? then e.page else s.calls[e.tid].page {
      RemoteTouchesOne(s, e, p);
    } else if e.Publish? {
      assert CallOk(s, e.tid);
    }
  }

  lemma RemoteFields(s: State, e: Event)
    requires Enabled(s, e) && Remote(e)
    ensures var s' := Apply(s, e);
      && s'.active == s.active && s'.retired == s.retired && s'.hold == s.hold && s'.pages.Keys == s.pages.Keys
      && (forall p :: p in s.ready ==> p in s'.ready)
      && forall p :: p in s.pages ==> SameOwned(s.pages[p], s'.pages[p]) && s'.pages[p].freeCount == s.pages[p].freeCount
  {}

  /** The first `n` pages of `active` had no free slot, and have none still; of
      the others, nothing has been taken. */
  ghost predicate Searched(s: State, s': State, n: nat) {
    && s'.active == s.active && Barren(s, n) && Barren(s', n)
    && forall i :: n <= i < |s.active| ==> Untouched(s, s', s.active[i])
  }

  ghost predicate Untouched(s: State, s': State, p: PageId) {
    p in s.pages && p in s'.pages && s'.pages[p].freeCount == s.pages[p].freeCount && SlotsStay(s.pages[p].slots, s'.pages[p].slots)
  }

  /** The first `n` pages of `active` had no free slot and nothing published. */
  predicate Spent(s: State, n: nat) {
    Barren(s, n) && forall i :: 0 <= i < n ==> NothingPublished(s.pages[s.active[i]].slots, STRIPES)
  }

  lemma StayTrans(a: seq<Slot>, b: seq<Slot>, c: seq<Slot>)
    requires SlotsStay(a, b) && SlotsStay(b, c)
    ensures SlotsStay(a, c)
  {}

  lemma NothingWas(a: seq<Slot>, b: seq<Slot>, k: nat)
    requires SlotsStay(a, b) && NothingPublished(b, k)
    ensures NothingPublished(a, k)
  {
    forall j | 0 <= j < k ensures Published(j) !in a {
      forall i | 0 <= i < |a| ensures a[i] != Published(j) { assert b[i] in b; }
    }
  }

  lemma QuietLists(s: State, s': State, p: PageId)
    requires QuietBut(s, s', p)
    ensures s'.active == s.active && s'.retired == s.retired && s'.hold == s.hold && s'.pages.Keys == s.pages.Keys
    ensures forall x :: x != p ==> FrozenIn(s, s', x)
  {}

  /** If every object of `x` is back, nothing has happened to it; and it is
      still on the ready stack if it was. */
  predicate FrozenIn(s: State, s': State, x: PageId) {
    (x in s.pages && AllBack(s.pages[x].slots) ==> x in s'.pages && s'.pages[x] == s.pages[x]) && (x in s.ready ==> x in s'.ready)
  }

  /** Tracked, and every object is back: reclaimable by whoever looks. */
  predicate Due(s: State, x: PageId) {
    x in s.pages && s.pages[x].flag && AllBack(s.pages[x].slots)
  }

  /** The page has a slot to hand out, or would have after a drain. */
  predicate Offers(page: Page) {
    HasCapacity(page) || !NothingPublished(page.slots, STRIPES)
  }

  predicate Tracked(s: State, x: PageId) {
    x in s.pages && s.pages[x].flag
  }

  /** The page has not been tracked meanwhile, and has lost no slot that it had to
      offer. */
  predicate Onward(s: State, s': State, x: PageId) {
    x in s'.pages ==> x in s.pages && (s'.pages[x].flag ==> s.pages[x].flag) && (Offers(s.pages[x]) ==> Offers(s'.pages[x]))
  }

  lemma OnwardTrans(s: State, s': State, s'': State, x: PageId)
    requires Onward(s, s', x) && Onward(s', s'', x)
    ensures Onward(s, s'', x)
  {
    hide Offers;
  }

  lemma OffersStill(s: State, s': State, x: PageId)
    requires Onward(s, s', x) && x in s'.pages
    ensures x in s.pages && (Offers(s.pages[x]) ==> Offers(s'.pages[x]))
  {}

  /** What a page had to offer it still has when it comes to be examined, unless
      it is gone. */
  lemma WalkedOnward(s: State, s': State, s'': State, x: PageId)
    requires Onward(s, s', x) && Onward(s', s'', x)
    ensures Onward(s, s'', x)
    ensures (x in s'.pages && Offers(s'.pages[x]) ==> !Tracked(s'', x)) ==> (x in s.pages && Offers(s.pages[x]) ==> !Tracked(s'', x))
  {
    hide Offers;
  }

  lemma StandsOnward(s: State, s': State, x: PageId)
    requires s'.pages.Keys <= s.pages.Keys && (x in s'.pages ==> s'.pages[x] == s.pages[x])
    ensures Onward(s, s', x)
  {}

  lemma QuietOnward(s: State, s': State, x: PageId)
    requires Quiet(s, s')
    ensures Onward(s, s', x)
  {
    if x in s'.pages { PublishedStay(s.pages[x].slots, s'.pages[x].slots); }
  }

  lemma PublishedStay(a: seq<Slot>, b: seq<Slot>)
    requires SlotsStay(a, b)
    ensures NothingPublished(b, STRIPES) ==> NothingPublished(a, STRIPES)
  {
    if NothingPublished(b, STRIPES) { NothingWas(a, b, STRIPES); }
  }

  /** A drain leaves what the page offers on its freelist. */
  lemma DrainOnward(s: State, s': State, p: PageId, merged: nat, x: PageId)
    requires QuietBut(s, s', p) && p in s.pages && s'.pages[p].freeCount == s.pages[p].freeCount + merged
    requires merged == 0 ==> NothingPublished(s.pages[p].slots, STRIPES)
    ensures Offers(s.pages[p]) ==> HasCapacity(s'.pages[p])
    ensures Onward(s, s', x)
  {
    if x in s'.pages && x != p { PublishedStay(s.pages[x].slots, s'.pages[x].slots); }
  }

  lemma PopOnward(s: State, x: PageId)
    requires CanPop(s)
    ensures Onward(s, DoPop(s), x)
  {}

  lemma CancelOnward(s: State, p: PageId, x: PageId)
    requires CanCancel(s, p)
    ensures Onward(s, DoCancel(s, p), x) && !Tracked(DoCancel(s, p), p)
  {}

  /** The page was not tracked when it was popped; its objects are where they
      were, if all were back. */
  predicate Popping(s: State, s': State, x: PageId) {
    x in s'.pages && !s'.pages[x].flag && (x in s.pages && AllBack(s.pages[x].slots) ==> AllBack(s'.pages[x].slots) && !s.pages[x].flag)
  }

  /** Since `s`, the candidate `x` is still waiting on the ready stack, or it has
      been dealt with: not pending, and destroyed if all its objects were back or
      it had a slot to offer. */
  ghost predicate ReadyKept(s: State, s': State, x: PageId) {
    x in s.ready && x in s.pages ==>
      || (x in s'.ready && (AllBack(s.pages[x].slots) ==> x in s'.pages && AllBack(s'.pages[x].slots)))
      || CandidateDone(s, s', x)
  }

  ghost predicate CandidateDone(s: State, s': State, x: PageId) {
    x in s.ready && x in s.pages ==> x !in Pending(s') && (AllBack(s.pages[x].slots) || Offers(s.pages[x]) ==> x !in s'.pages)
  }

  /** Nothing but the sweep touches a page that is due. */
  predicate DueKept(s: State, s': State, x: PageId) {
    Due(s, x) ==> x in s'.pages && s'.pages[x] == s.pages[x]
  }

  /** Once it has been examined, a page that was due at `s` is gone, and one that
      had a slot to offer is not tracked any more; before, a page that is due has
      not changed. */
  predicate DueSwept(s: State, s': State, examined: seq<PageId>, x: PageId) {
    Onward(s, s', x)
    && if x in examined then (Due(s, x) ==> x !in s'.retired) && (x in s.pages && Offers(s.pages[x]) ==> !Tracked(s', x)) else DueKept(s, s', x)
  }

  lemma DueUnswept(s: State, x: PageId)
    ensures DueSwept(s, s, [], x)
  {}

  lemma DueSweptOn(start: State, s: State, s': State, examined: seq<PageId>, p: PageId, promoted: bool, x: PageId)
    requires DueSwept(start, s, examined, x) && (Due(s, p) ==> !promoted && p !in s'.retired)
    requires !promoted ==> (x != p ==> FrozenIn(s, s', x)) && (x in s'.retired ==> x in s.retired) && Onward(s, s', x)
    requires !promoted && p in s.pages && Offers(s.pages[p]) ==> !Tracked(s', p)
    requires promoted ==> (x in examined && x in s'.retired ==> x in s.retired)
    ensures !promoted ==> DueSwept(start, s', examined + [p], x)
    ensures promoted && x in examined + [p] && Due(start, x) ==> x !in s'.retired
  {
    hide Offers;
  }

  lemma DueSweptEnds(s: State, s': State, examined: seq<PageId>, x: PageId)
    requires DueSwept(s, s', examined, x)
    ensures x in examined && Due(s, x) ==> x !in s'.retired
    ensures x !in examined ==> DueKept(s, s', x)
    ensures Onward(s, s', x) && (x in examined && x in s.pages && Offers(s.pages[x]) ==> !Tracked(s', x))
  {}

  lemma KeptAtOnce(s: State, x: PageId)
    ensures ReadyKept(s, s, x) && DueKept(s, s, x)
  {}

  lemma KeptThroughPop(start: State, s: State, s': State, popped: Option<PageId>, x: PageId)
    requires ReadyKept(start, s, x) && DueKept(start, s, x)
    requires Pending(s') <= Pending(s) && s'.pages.Keys <= s.pages.Keys
    requires popped.None? ==> s'.ready == []
    requires popped.Some? ==> popped.value in Pending(s) && popped.value !in Pending(s')
    requires if popped == Some(x) then Popping(s, s', x) else FrozenIn(s, s', x)
    ensures DueKept(start, s', x)
    ensures popped != Some(x) ==> ReadyKept(start, s', x)
    ensures popped == Some(x) && x in start.ready && x in start.pages && AllBack(start.pages[x].slots) ==> x in s'.pages && AllBack(s'.pages[x].slots)
    ensures popped == Some(x) ==> x !in Pending(s') && !Due(start, x)
    ensures popped.None? ==> CandidateDone(start, s', x)
  {}

  lemma KeptThroughSettle(start: State, s: State, s': State, popped: PageId, x: PageId)
    requires DueKept(start, s, x) && Pending(s') <= Pending(s) && s'.pages.Keys <= s.pages.Keys
    requires popped != x ==> ReadyKept(start, s, x) && FrozenIn(s, s', x)
    requires popped == x ==> x !in Pending(s) && (x in s.pages && (AllBack(s.pages[x].slots) || Offers(s.pages[x])) ==> x !in s'.pages)
    requires Onward(start, s, x)
    requires popped == x && x in start.ready && x in start.pages && AllBack(start.pages[x].slots) ==> x in s.pages && AllBack(s.pages[x].slots)
    requires popped == x ==> !Due(start, x)
    ensures DueKept(start, s', x) && ReadyKept(start, s', x)
  {}

  lemma QuietFrozen(s: State, s': State, x: PageId)
    requires Quiet(s, s')
    ensures FrozenIn(s, s', x)
  {}

  lemma SearchBegins(s: State)
    requires forall i :: 0 <= i < |s.active| ==> s.active[i] in s.pages
    ensures Searched(s, s, 0) && Spent(s, 0)
  {}

  /** Page `n` had no free slot; it was drained, and the rest of `active` is
      distinct from it. */
  lemma SearchGoesOn(start: State, s: State, s': State, n: nat, merged: nat)
    requires Searched(start, s, n) && n < |s.active| && NoDup(s.active) && s.active[n] in s.pages && !HasCapacity(s.pages[s.active[n]])
    requires QuietBut(s, s', s.active[n]) && s.active[n] in s'.pages
    requires s'.pages[s.active[n]].freeCount == s.pages[s.active[n]].freeCount + merged
    requires merged == 0 ==> NothingPublished(s.pages[s.active[n]].slots, STRIPES)
    ensures Barren(start, n + 1)
    ensures merged == 0 ==> Searched(start, s', n + 1) && (Spent(start, n) ==> Spent(start, n + 1))
    ensures merged > 0 ==> HasCapacity(s'.pages[s.active[n]])
  {
    var p := s.active[n];
    assert Untouched(start, s, start.active[n]);
    if merged == 0 {
      NothingWas(start.pages[p].slots, s.pages[p].slots, STRIPES);
      forall i | n + 1 <= i < |start.active| ensures Untouched(start, s', start.active[i]) {
        assert Untouched(start, s, start.active[i]);
        StayTrans(start.pages[s.active[i]].slots, s.pages[s.active[i]].slots, s'.pages[s.active[i]].slots);
      }
    }
  }

  /** The first `n` pages of `active` have no free slot. */
  predicate Barren(s: State, n: nat) {
    n <= |s.active| && forall i :: 0 <= i < n ==> s.active[i] in s.pages && !HasCapacity(s.pages[s.active[i]])
  }

  /** `p` heads the list, and what is past the scan limit falls off its end. */
  function Fitted(p: PageId, active: seq<PageId>): seq<PageId> {
    var all := [p] + active;
    if |all| <= SCAN_LIMIT then all else all[..SCAN_LIMIT]
  }

  predicate EvictionStats(a: Stats, b: Stats) {
    b == a.(evictions := b.evictions, evictionReclaimed := b.evictionReclaimed, retired := b.retired, maxRetired := b.maxRetired)
    && a.evictions <= b.evictions
  }

  /** `p` left `retired`, and the tail of `active` may have come in. */
  ghost predicate Promoted(s: State, a: Round, n: Stats, p: PageId, s': State, b: Round, n': Stats)
    requires p in a.retired
  {
    b == Removed(a, p)
    || (s.active != [] && b == Evicted(Removed(a, p), s.active[|s.active| - 1]) && n'.evictions == n.evictions + 1)
  }

  lemma StandsStill(a: Round, x: PageId)
    requires CursorOk(a) && x in a.retired
    ensures Advances(a, a, 0, 0, x)
  {}

  lemma RemovalFollows(a: Round, p: PageId, b: Round, x: PageId)
    requires CursorOk(a) && NoDup(a.retired) && p in a.retired && (b == a || b == Removed(a, p))
    ensures x in b.retired ==> x in a.retired && Advances(a, b, 0, 0, x)
  {
    WithoutElements(a.retired, p);
    if b == a {
      if x in a.retired { StandsStill(a, x); }
    } else if x in b.retired {
      RemoveAdvances(a, p, x);
    }
  }

  lemma PromotionFollows(s: State, a: Round, n: Stats, p: PageId, s': State, b: Round, n': Stats, x: PageId)
    requires CursorOk(a) && NoDup(a.retired) && p in a.retired && Promoted(s, a, n, p, s', b, n') && NoDup(b.retired)
    requires s.active != [] ==> s.active[|s.active| - 1] !in a.retired
    requires n.evictions <= n'.evictions
    ensures x in b.retired ==> x in a.retired || (s.active != [] && x == s.active[|s.active| - 1])
    ensures x in a.retired && x in b.retired ==> Advances(a, b, 0, n'.evictions - n.evictions, x)
  {
    var mid := Removed(a, p);
    WithoutElements(a.retired, p);
    LeftAfterRemove(a, p);
    RemovalFollows(a, p, mid, x);
    if x in a.retired && x in b.retired {
      if b != mid {
        EvictionAdvances(mid, s.active[|s.active| - 1], x);
        AdvancesTrans(a, mid, b, 0, 0, 0, 1, x);
      }
    }
  }

  predicate Subset(a: seq<PageNode>, b: seq<PageNode>) {
    forall i :: 0 <= i < |a| ==> a[i] in b
  }

  /** What a candidate that is not promoted leaves behind. */
  predicate CandidateLeft(a: Round, n: Stats, p: PageId, b: Round, n': Stats) {
    || (b == a && n' == n.(staleGenerations := n.staleGenerations + 1))
    || (b == a && n' == n.(falsePositives := n.falsePositives + 1))
    || (p in a.retired && b == Removed(a, p) && n' == n.Reclaim(ByReady))
  }

  /** The pages, at most one, that a candidate's turn took out of `retired`. */
  lemma LeftBehind(a: Round, n: Stats, p: PageId, b: Round, n': Stats, x: PageId) returns (gone: seq<PageId>)
    requires CursorOk(a) && NoDup(a.retired) && p in a.retired && CandidateLeft(a, n, p, b, n')
    ensures x in b.retired ==> x in a.retired && Advances(a, b, 0, 0, x)
    ensures n'.evictions == n.evictions && n'.harvestCalls == n.harvestCalls
    ensures gone <= [p] && b == RemovedAll(a, gone) && n'.reclaimedByReady == n.reclaimedByReady + |gone| && n'.Promoted() == n.Promoted()
  {
    RemovalFollows(a, p, b, x);
    gone := if n'.reclaimedByReady == n.reclaimedByReady then [] else [p];
    assert [p][..0] == [];
  }

  /** Page `k - 1` of `retired` is gone, the others are as they were. */
  predicate Removal(s: State, nodes: seq<PageNode>, k: nat, s': State, nodes': seq<PageNode>) {
    0 < k <= |nodes| == |s.retired| && s'.retired == Without(s.retired, s.retired[k - 1]) && nodes' == nodes[..k - 1] + nodes[k..]
  }

  predicate IsTail(s: State, x: PageId) {
    s.active != [] && x == s.active[|s.active| - 1]
  }

  /** The sweep is over: a page has been promoted. */
  lemma SweepLeaves(start: Round, s: State, a: Round, n: Stats, k: nat, examined: seq<PageId>, s': State, b: Round, n': Stats, x: PageId)
    requires 0 < k <= |a.retired| && NoDup(a.retired) && Followed(start, a.retired, k, examined, x)
    requires Promoted(s, a, n, a.retired[k - 1], s', b, n') && NoDup(b.retired) && n.evictions <= n'.evictions
    requires s.active != [] ==> s.active[|s.active| - 1] !in start.retired && s.active[|s.active| - 1] !in a.retired
    ensures x in b.retired ==> x in a.retired || IsTail(s, x)
    ensures x in start.retired && x in b.retired && x !in examined + [a.retired[k - 1]] ==>
              Advances(start, Round(b.retired, CursorAt(a.retired, k - 1)), |examined| + 1, n'.evictions - n.evictions, x)
  {
    PromotionBrings(s, a, n, a.retired[k - 1], s', b, n', x);
    if x in start.retired && x in b.retired && x !in examined + [a.retired[k - 1]] {
      SweepPromotes(start, s, a, n, k, examined, s', b, n', x);
    }
  }

  /** The sweep goes on: the page stayed, or was reclaimed. */
  lemma SweepStays(start: Round, s: State, nodes: seq<PageNode>, k: nat, examined: seq<PageId>, s': State, nodes': seq<PageNode>, x: PageId)
    requires 0 < k <= |nodes| == |s.retired| && NoDup(s.retired) && Sweeping(start, s.retired, k, examined) && Followed(start, s.retired, k, examined, x)
    requires Removal(s, nodes, k, s', nodes') || (s'.retired == s.retired && nodes' == nodes)
    ensures Subset(nodes', nodes) && |nodes'| >= k - 1 && (k > 1 ==> nodes'[k - 2] == nodes[k - 2])
    ensures x in s'.retired ==> x in s.retired
    ensures Sweeping(start, s'.retired, k - 1, examined + [s.retired[k - 1]]) && Followed(start, s'.retired, k - 1, examined + [s.retired[k - 1]], x)
  {
    StillWithin(s.retired, k, s'.retired, x);
    StillSubset(nodes', nodes, k - 1);
    SweepGoesOn(start, s.retired, k, examined, s'.retired, x);
  }

  lemma StillWithin(xs: seq<PageId>, k: nat, xs': seq<PageId>, x: PageId)
    requires NoDup(xs) && 0 < k <= |xs| && (xs' == xs || xs' == Without(xs, xs[k - 1]))
    ensures x in xs' ==> x in xs
  {
    WithoutElements(xs, xs[k - 1]);
  }

  lemma ExaminedWasRetired(start: Round, xs: seq<PageId>, k: nat, examined: seq<PageId>, x: PageId)
    requires Sweeping(start, xs, k, examined)
    ensures x in examined ==> x in start.retired
  {}

  lemma PromotionBrings(s: State, a: Round, n: Stats, p: PageId, s': State, b: Round, n': Stats, x: PageId)
    requires NoDup(a.retired) && p in a.retired && Promoted(s, a, n, p, s', b, n')
    ensures x in b.retired ==> x in a.retired || IsTail(s, x)
  {
    WithoutElements(a.retired, p);
  }

  /** The sweep ends by promoting the page it examined. */
  lemma SweepPromotes(start: Round, s: State, a: Round, n: Stats, k: nat, examined: seq<PageId>, s': State, b: Round, n': Stats, x: PageId)
    requires 0 < k <= |a.retired| && NoDup(a.retired) && Followed(start, a.retired, k, examined, x)
    requires Promoted(s, a, n, a.retired[k - 1], s', b, n') && NoDup(b.retired) && n.evictions <= n'.evictions
    requires s.active != [] ==> s.active[|s.active| - 1] !in start.retired && s.active[|s.active| - 1] !in a.retired
    requires x in start.retired && x in b.retired && x !in examined && x != a.retired[k - 1]
    ensures Advances(start, Round(b.retired, CursorAt(a.retired, k - 1)), |examined| + 1, n'.evictions - n.evictions, x)
  {
    var p, rest := a.retired[k - 1], Without(a.retired, a.retired[k - 1]);
    WithoutElements(a.retired, p);
    var mid := Round(rest, CursorAt(a.retired, k - 1));
    SweepFollows(start, a.retired, k, |examined|, rest, x);
    if b.retired != rest {
      EvictionAdvances(mid, s.active[|s.active| - 1], x);
      AdvancesTrans(start, mid, Evicted(mid, s.active[|s.active| - 1]), |examined| + 1, 0, 0, 1, x);
    }
  }

  lemma StillThere(all: seq<PageNode>, nodes: seq<PageNode>, k: nat, i: nat)
    requires i < k < |nodes| && MaybeArrived(all, nodes[..k] + nodes[k + 1..])
    ensures nodes[i] in all
  {
    var rest := nodes[..k] + nodes[k + 1..];
    assert rest[i] == nodes[i];
    assert all == rest || all[1..][i] == nodes[i];
  }

  lemma StillSubset(all: seq<PageNode>, nodes: seq<PageNode>, k: nat)
    requires k < |nodes| && (all == nodes || all == nodes[..k] + nodes[k + 1..])
    ensures Subset(all, nodes)
  {}

  lemma SubsetReaches(a: seq<PageNode>, b: seq<PageNode>)
    requires Subset(a, b)
    ensures forall i :: 0 <= i < |a| ==> a[i] in b
  {}

  lemma SubsetTrans(a: seq<PageNode>, b: seq<PageNode>, c: seq<PageNode>)
    requires Subset(a, b) && Subset(b, c)
    ensures Subset(a, c)
  {}

  lemma SubsetOfItself(a: seq<PageNode>)
    ensures Subset(a, a)
  {}

  /** `nodes`, perhaps after one that has just come in. */
  predicate MaybeArrived(all: seq<PageNode>, nodes: seq<PageNode>) {
    all == nodes || (all != [] && all[1..] == nodes)
  }

  /** Every object of the page has been freed, if not yet merged. */
  predicate AllBack(slots: seq<Slot>) {
    forall i :: 0 <= i < |slots| ==> slots[i].Free? || (slots[i].Published? && slots[i].stripe < STRIPES)
  }

  lemma AllBackIsIdle(es: seq<Event>, p: PageId, before: seq<Slot>)
    requires CanRun(INIT, es) && p in Run(INIT, es).pages
    requires AllBack(before) && DrainedTo(before, Run(INIT, es).pages[p].slots, STRIPES)
    ensures Idle(Run(INIT, es).pages[p])
  {
    var s := Run(INIT, es);
    ReachableInv(es);
    assert PageOk(s, p);
    CountAll(s.pages[p].slots, Free);
  }

  /** The tail of `active`, which still had objects out, is now the head of
      `retired`, and tracked. */
  predicate EvictedInto(s: State, a: Stats, s': State, b: Stats) {
    && s.active != [] && s'.retired == [s.active[|s.active| - 1]] + s.retired && b.evictions == a.evictions + 1
    && Tracked(s', s.active[|s.active| - 1]) && (s.active[|s.active| - 1] in s.pages ==> !AllBack(s.pages[s.active[|s.active| - 1]].slots))
  }

  lemma DrainQuiet(es: seq<Event>, p: PageId, stripe: nat)
    requires CanRun(INIT, es) && p in Run(INIT, es).pages
    ensures QuietBut(Run(INIT, es), DoDrain(Run(INIT, es), p, stripe), p)
  {
    PendingAfter(es, Drain(p, stripe));
  }
}
