/** One size class of one owner thread, as the step relation that its memory
    goes through: the owner's private moves (create, allocate, evict, retire,
    harvest) and, one atomic operation at a time, the frees that other threads
    send it (claim, note, publish).

    Every atomic operation of the retired-ready handshake and of the remote
    free path is one step, so any interleaving of threads is a sequence of
    events. */
module ReadyProtocol {

  const SCAN_LIMIT: nat := 128
  const WORD: nat := 0x1_0000_0000
  const STRIPES: nat := 4

  type PageId = nat
  type Tid = nat

  /** Where one slot of a page is: on the owner's freelist (or never bumped),
      handed out, claimed by a remote free that has not published it yet, or
      published on one of the page's remote stripes. */
  datatype Slot = Free | Live | Claimed(tid: Tid) | Published(stripe: nat)

  /** Which of the owner's two lists links a page (owner_list_kind). */
  datatype Kind = InNone | InActive | InRetired

  /** The page fields this protocol reads and writes. `flag`, `outstanding`,
      `onStack` and `readyGen` are the page's retired_ready_* fields. */
  datatype Page = Page(kind: Kind, slots: seq<Slot>, freeCount: nat, gen: nat,
                       flag: bool, outstanding: nat, onStack: bool, readyGen: nat)

  /** The next atomic operation of a remote free that has claimed its slot. */
  datatype Pc = AtLoadFlag | AtDecrement | AtTakeFlag | AtSetOnStack | AtPush | AtPublish

  datatype Call = Call(page: PageId, slot: nat, pc: Pc)

  /** The page the owner is in the middle of moving: unlinked from both lists,
      linked into `retired` but not yet tracked, popped from the ready stack,
      or taken by winning the cancel handshake. */
  datatype Hold = Nothing | Detached(page: PageId) | Marking(page: PageId) | Popped(page: PageId) | Cancelled(page: PageId)

  /** `active`, `retired` and `ready` list their head first. A thread that is
      not in `calls` is not inside a remote free. */
  datatype State = State(pages: map<PageId, Page>, active: seq<PageId>, retired: seq<PageId>,
                         ready: seq<PageId>, calls: map<Tid, Call>, hold: Hold)

  datatype Event =
    // Owner thread
    | Create(page: PageId, slotCount: nat, gen: nat)
    | Activate
    | Alloc(page: PageId, slot: nat)
    | LocalFree(page: PageId, slot: nat)
    | MoveToFront(page: PageId)
    | Drain(page: PageId, stripe: nat)
    | EvictTail
    | Reclaim
    | Retire
    | Mark
    | Pop
    | DropStale
    | LeaveInPlace
    | Cancel(page: PageId)
    | Unlink
    // Any other thread
    | Claim(tid: Tid, page: PageId, slot: nat)
    | Note(tid: Tid)
    | Publish(tid: Tid, stripe: nat)

  predicate Remote(e: Event) {
    e.Claim? || e.Note? || e.Publish?
  }

  const INIT: State := State(map[], [], [], [], map[], Nothing)

  function Count(slots: seq<Slot>, v: Slot): (n: nat)
    ensures n <= |slots|
  {
    if slots == [] then 0 else Count(slots[..|slots| - 1], v) + (if slots[|slots| - 1] == v then 1 else 0)
  }

  /** Moves every slot published on `stripe` to the owner's freelist. */
  function Merged(slots: seq<Slot>, stripe: nat): (r: seq<Slot>)
    ensures |r| == |slots|
  {
    seq(|slots|, i requires 0 <= i < |slots| => if slots[i] == Published(stripe) then Free else slots[i])
  }

  predicate Idle(page: Page) {
    page.freeCount == |page.slots|
  }

  predicate HasCapacity(page: Page) {
    page.freeCount > 0
  }

  /** The list without its (only) occurrence of `p`. */
  function Without(xs: seq<PageId>, p: PageId): (r: seq<PageId>)
    ensures |r| <= |xs|
  {
    if xs == [] then [] else if xs[0] == p then xs[1..] else [xs[0]] + Without(xs[1..], p)
  }

  // Owner thread.

  predicate CanCreate(s: State, p: PageId, n: nat) {
    s.hold == Nothing && |s.active| <= SCAN_LIMIT && p !in s.pages && 0 < n < WORD
  }

  /** A fresh page: its struct is zeroed and every slot is free. */
  function DoCreate(s: State, p: PageId, n: nat, gen: nat): State {
    s.(pages := s.pages[p := Page(InNone, seq(n, i => Free), n, gen, false, 0, false, 0)], hold := Detached(p))
  }

  predicate CanActivate(s: State) {
    s.hold.Detached? && s.hold.page in s.pages && HasCapacity(s.pages[s.hold.page])
  }

  function DoActivate(s: State): State
    requires CanActivate(s)
  {
    var p := s.hold.page;
    s.(pages := s.pages[p := s.pages[p].(kind := InActive)], active := [p] + s.active, hold := Nothing)
  }

  /** Allocation takes a slot only from a page of the active list. */
  predicate CanAlloc(s: State, p: PageId, i: nat) {
    s.hold == Nothing && p in s.pages && s.pages[p].kind == InActive && s.pages[p].freeCount > 0
    && i < |s.pages[p].slots| && s.pages[p].slots[i] == Free
  }

  function DoAlloc(s: State, p: PageId, i: nat): State
    requires CanAlloc(s, p, i)
  {
    var page := s.pages[p];
    s.(pages := s.pages[p := page.(slots := page.slots[i := Live], freeCount := page.freeCount - 1)])
  }

  predicate CanLocalFree(s: State, p: PageId, i: nat) {
    s.hold == Nothing && p in s.pages && i < |s.pages[p].slots| && s.pages[p].slots[i] == Live
  }

  function DoLocalFree(s: State, p: PageId, i: nat): State
    requires CanLocalFree(s, p, i)
  {
    var page := s.pages[p];
    s.(pages := s.pages[p := page.(slots := page.slots[i := Free], freeCount := page.freeCount + 1)])
  }

  function DoMoveToFront(s: State, p: PageId): State {
    s.(active := [p] + Without(s.active, p))
  }

  /** The owner's exchange on one stripe, merged into its freelist. */
  function DoDrain(s: State, p: PageId, stripe: nat): State
    requires p in s.pages
  {
    var page := s.pages[p];
    s.(pages := s.pages[p := page.(slots := Merged(page.slots, stripe),
                                   freeCount := page.freeCount + Count(page.slots, Published(stripe)))])
  }

  predicate CanEvictTail(s: State) {
    s.hold == Nothing && |s.active| > SCAN_LIMIT && s.active[|s.active| - 1] in s.pages
  }

  function DoEvictTail(s: State): State
    requires CanEvictTail(s)
  {
    var p := s.active[|s.active| - 1];
    s.(pages := s.pages[p := s.pages[p].(kind := InNone)], active := s.active[..|s.active| - 1], hold := Detached(p))
  }

  predicate CanReclaim(s: State) {
    s.hold.Detached? && s.hold.page in s.pages && Idle(s.pages[s.hold.page])
  }

  function DoReclaim(s: State): State
    requires CanReclaim(s)
  {
    s.(pages := s.pages - {s.hold.page}, hold := Nothing)
  }

  predicate CanRetire(s: State) {
    s.hold.Detached? && s.hold.page in s.pages && s.pages[s.hold.page].freeCount < |s.pages[s.hold.page].slots|
  }

  /** Links the page into `retired` and stores the count it is marked with. */
  function DoRetire(s: State): State
    requires CanRetire(s)
  {
    var p := s.hold.page;
    var page := s.pages[p];
    s.(pages := s.pages[p := page.(kind := InRetired, outstanding := (|page.slots| - page.freeCount) % WORD, readyGen := page.gen)],
       retired := [p] + s.retired, hold := Marking(p))
  }

  predicate CanMark(s: State) {
    s.hold.Marking? && s.hold.page in s.pages
  }

  /** The flag store that makes the page tracked. */
  function DoMark(s: State): State
    requires CanMark(s)
  {
    var p := s.hold.page;
    s.(pages := s.pages[p := s.pages[p].(flag := true)], hold := Nothing)
  }

  predicate CanPop(s: State) {
    s.hold == Nothing && |s.active| <= SCAN_LIMIT && s.ready != [] && s.ready[0] in s.pages
  }

  function DoPop(s: State): State
    requires CanPop(s)
  {
    var p := s.ready[0];
    s.(pages := s.pages[p := s.pages[p].(onStack := false)], ready := s.ready[1..], hold := Popped(p))
  }

  predicate Stale(s: State, p: PageId)
    requires p in s.pages
  {
    s.pages[p].gen != s.pages[p].readyGen
  }

  predicate CanDropStale(s: State) {
    s.hold.Popped? && s.hold.page in s.pages && Stale(s, s.hold.page)
  }

  predicate CanLeaveInPlace(s: State) {
    s.hold.Popped? && s.hold.page in s.pages && !Stale(s, s.hold.page) && !Idle(s.pages[s.hold.page]) && !HasCapacity(s.pages[s.hold.page])
  }

  function DoLetGo(s: State): State {
    s.(hold := Nothing)
  }

  /** The cancel handshake is won: a compare-exchange of the flag from 1 to 0. */
  predicate CanCancel(s: State, p: PageId) {
    s.hold == Nothing && |s.active| <= SCAN_LIMIT && p in s.pages && s.pages[p].kind == InRetired && s.pages[p].flag && HasCapacity(s.pages[p])
  }

  function DoCancel(s: State, p: PageId): State
    requires CanCancel(s, p)
  {
    s.(pages := s.pages[p := s.pages[p].(flag := false)], hold := Cancelled(p))
  }

  predicate CanUnlink(s: State) {
    (s.hold.Popped? || s.hold.Cancelled?) && s.hold.page in s.pages && HasCapacity(s.pages[s.hold.page])
    && (s.hold.Popped? ==> !Stale(s, s.hold.page))
  }

  function DoUnlink(s: State): State
    requires CanUnlink(s)
  {
    var p := s.hold.page;
    s.(pages := s.pages[p := s.pages[p].(kind := InNone)], retired := Without(s.retired, p), hold := Detached(p))
  }

  // Any other thread.

  predicate CanClaim(s: State, t: Tid, p: PageId, i: nat) {
    t !in s.calls && p in s.pages && i < |s.pages[p].slots| && s.pages[p].slots[i] == Live
  }

  function DoClaim(s: State, t: Tid, p: PageId, i: nat): State
    requires CanClaim(s, t, p, i)
  {
    s.(pages := s.pages[p := s.pages[p].(slots := s.pages[p].slots[i := Claimed(t)])], calls := s.calls[t := Call(p, i, AtLoadFlag)])
  }

  predicate At(s: State, t: Tid, pc: Pc) {
    t in s.calls && s.calls[t].pc == pc && s.calls[t].page in s.pages
  }

  function DoLoadFlag(s: State, t: Tid): State
    requires At(s, t, AtLoadFlag)
  {
    var c := s.calls[t];
    s.(calls := s.calls[t := c.(pc := if s.pages[c.page].flag then AtDecrement else AtPublish)])
  }

  /** fetch_sub of a 32-bit counter. */
  function DoDecrement(s: State, t: Tid): State
    requires At(s, t, AtDecrement)
  {
    var c := s.calls[t];
    var page := s.pages[c.page];
    s.(pages := s.pages[c.page := page.(outstanding := (page.outstanding + WORD - 1) % WORD)],
       calls := s.calls[t := c.(pc := if page.outstanding == 1 then AtTakeFlag else AtPublish)])
  }

  /** The note's own compare-exchange of the flag from 1 to 0. */
  function DoTakeFlag(s: State, t: Tid): State
    requires At(s, t, AtTakeFlag)
  {
    var c := s.calls[t];
    var page := s.pages[c.page];
    s.(pages := s.pages[c.page := page.(flag := false)], calls := s.calls[t := c.(pc := if page.flag then AtSetOnStack else AtPublish)])
  }

  function DoSetOnStack(s: State, t: Tid): State
    requires At(s, t, AtSetOnStack)
  {
    var c := s.calls[t];
    s.(pages := s.pages[c.page := s.pages[c.page].(onStack := true)], calls := s.calls[t := c.(pc := AtPush)])
  }

  function DoPush(s: State, t: Tid): State
    requires At(s, t, AtPush)
  {
    var c := s.calls[t];
    s.(ready := [c.page] + s.ready, calls := s.calls[t := c.(pc := AtPublish)])
  }

  predicate CanPublish(s: State, t: Tid) {
    At(s, t, AtPublish) && s.calls[t].slot < |s.pages[s.calls[t].page].slots|
  }

  /** The slot becomes visible to the owner's drain; nothing follows it. */
  function DoPublish(s: State, t: Tid, stripe: nat): State
    requires CanPublish(s, t)
  {
    var c := s.calls[t];
    s.(pages := s.pages[c.page := s.pages[c.page].(slots := s.pages[c.page].slots[c.slot := Published(stripe)])], calls := s.calls - {t})
  }

  predicate Enabled(s: State, e: Event) {
    match e
    case Create(p, n, gen) => CanCreate(s, p, n)
    case Activate => CanActivate(s)
    case Alloc(p, i) => CanAlloc(s, p, i)
    case LocalFree(p, i) => CanLocalFree(s, p, i)
    case MoveToFront(p) => s.hold == Nothing && p in s.active
    case Drain(p, stripe) => p in s.pages
    case EvictTail => CanEvictTail(s)
    case Reclaim => CanReclaim(s)
    case Retire => CanRetire(s)
    case Mark => CanMark(s)
    case Pop => CanPop(s)
    case DropStale => CanDropStale(s)
    case LeaveInPlace => CanLeaveInPlace(s)
    case Cancel(p) => CanCancel(s, p)
    case Unlink => CanUnlink(s)
    case Claim(t, p, i) => CanClaim(s, t, p, i)
    case Note(t) => t in s.calls && At(s, t, s.calls[t].pc) && s.calls[t].pc != AtPublish
    case Publish(t, stripe) => CanPublish(s, t) && stripe < STRIPES
  }

  function Apply(s: State, e: Event): State
    requires Enabled(s, e)
  {
    match e
    case Create(p, n, gen) => DoCreate(s, p, n, gen)
    case Activate => DoActivate(s)
    case Alloc(p, i) => DoAlloc(s, p, i)
    case LocalFree(p, i) => DoLocalFree(s, p, i)
    case MoveToFront(p) => DoMoveToFront(s, p)
    case Drain(p, stripe) => DoDrain(s, p, stripe)
    case EvictTail => DoEvictTail(s)
    case Reclaim => DoReclaim(s)
    case Retire => DoRetire(s)
    case Mark => DoMark(s)
    case Pop => DoPop(s)
    case DropStale => DoLetGo(s)
    case LeaveInPlace => DoLetGo(s)
    case Cancel(p) => DoCancel(s, p)
    case Unlink => DoUnlink(s)
    case Claim(t, p, i) => DoClaim(s, t, p, i)
    case Note(t) =>
      (match s.calls[t].pc
       case AtLoadFlag => DoLoadFlag(s, t)
       case AtDecrement => DoDecrement(s, t)
       case AtTakeFlag => DoTakeFlag(s, t)
       case AtSetOnStack => DoSetOnStack(s, t)
       case AtPush => DoPush(s, t))
    case Publish(t, stripe) => DoPublish(s, t, stripe)
  }

  /** `es` is a run from `s`: each event is enabled where it happens. */
  predicate CanRun(s: State, es: seq<Event>)
    decreases |es|, 0
  {
    es == [] || (CanRun(s, es[..|es| - 1]) && Enabled(Run(s, es[..|es| - 1]), es[|es| - 1]))
  }

  function Run(s: State, es: seq<Event>): State
    requires CanRun(s, es)
    decreases |es|, 1
  {
    if es == [] then s else Apply(Run(s, es[..|es| - 1]), es[|es| - 1])
  }
}
