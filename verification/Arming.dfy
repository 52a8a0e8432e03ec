/** Sixth layer: the watchdog's request ring, its heap, and the entry in its
    hand.  Together they hold every armed message that is still unanswered. */
module Arming {
  import opened Rings
  import opened Protocol
  import opened Structure
  import Handshake
  import opened Tokens
  import Lifecycle

  /** The callback has not yet claimed a request. */
  predicate BeforeArm(pc: CallbackPc) {
    Deciding(pc) || pc.Fill? || pc.SetAnswer? || pc.SetOccupied? || pc.ArmLoad? || pc.ArmRead? || pc.ArmCas?
  }

  /** The callback has parked the token and has neither armed the slot nor answered it. */
  predicate StillArming(pc: CallbackPc) {
    pc.SetOccupied? || pc.ArmLoad? || pc.ArmRead? || pc.ArmCas? || pc.SelfCas?
  }

  predicate Requesting(pc: CallbackPc) { pc.ArmFill? || pc.ArmPublish? }

  /** The entry that stands for an accepted message. */
  function EntryFor(s: State, m: nat): Entry
    requires Shape(s) && m < Count(s) && s.fates[m].Accepted?
  {
    Entry(MySlot(s, m), s.fates[m].pos, s.fires[m])
  }

  /** Request claim q was made for this message. */
  ghost predicate ArmOk(s: State, q: nat)
    requires q < |s.arms|
  {
    && s.arms[q] < |s.claims| && s.claims[s.arms[q]] < |s.armed|
    && s.armed[s.claims[s.arms[q]]] == ArmedAt(q)
  }

  ghost predicate ArmedOk(s: State, m: nat)
    requires Shape(s) && m < Count(s)
  {
    && (s.armed[m].ArmedAt? ==>
          && s.fates[m].Accepted? && !BeforeArm(s.pcs[m])
          && s.armed[m].at < |s.arms| && s.arms[s.armed[m].at] == s.fates[m].pos)
    && (Requesting(s.pcs[m]) ==>
          var q := s.pcs[m].at;
          && s.armed[m] == ArmedAt(q)
          && s.requests.cells[At(q, Cap(s))].cur == q && s.requests.cells[At(q, Cap(s))].phase == Claimed
          && (s.pcs[m].ArmPublish? && s.fates[m].Accepted? ==> s.reqs[At(q, Cap(s))] == EntryFor(s, m)))
  }

  /** What a request cell contains. */
  ghost predicate RequestOk(s: State, i: nat)
    requires Shape(s) && i < Cap(s)
  {
    var c := s.requests.cells[i];
    c.phase != Free ==>
      && c.cur < |s.arms| && s.arms[c.cur] < |s.claims| && s.claims[s.arms[c.cur]] < Count(s)
      && var m := s.claims[s.arms[c.cur]];
      && (c.phase == Claimed ==> Requesting(s.pcs[m]) && s.pcs[m].at == c.cur)
      && (c.phase != Claimed ==> s.fates[m].Accepted? && s.reqs[i] == EntryFor(s, m))
  }

  /** Later requests for a slot are for later positions. */
  ghost predicate Later(s: State, q: nat, r: nat)
    requires 0 < s.queue.cap && q < r < |s.arms|
  {
    At(s.arms[q], s.queue.cap) == At(s.arms[r], s.queue.cap) ==> s.arms[q] < s.arms[r]
  }

  /** An entry the watchdog has popped: it stands for an armed message. */
  ghost predicate Popped(s: State, e: Entry, bound: int)
    requires Shape(s)
  {
    && e.position < |s.claims| && s.claims[e.position] < Count(s)
    && var m := s.claims[e.position];
    && s.fates[m] == Accepted(e.position) && e == EntryFor(s, m)
    && s.armed[m].ArmedAt? && s.armed[m].at < bound
  }

  /** The request claims whose entries may be in the heap. */
  function HeapBound(s: State): int {
    if s.wd.PopFree? || s.wd.HeapSet? then s.requests.deq - 1 else s.requests.deq
  }

  ghost predicate HeapOk(s: State, k: nat)
    requires Shape(s) && k in s.heap
  {
    k < Cap(s) && s.heap[k].slot == k && Popped(s, s.heap[k], HeapBound(s))
  }

  ghost predicate WatchdogOk(s: State)
    requires Shape(s)
  {
    && (s.wd.PopTake? ==> Takeable(s.requests))
    && (s.wd.PopFree? ==>
          && s.wd.at + 1 == s.requests.deq
          && s.requests.cells[At(s.wd.at, Cap(s))].cur == s.wd.at
          && s.requests.cells[At(s.wd.at, Cap(s))].phase == Held)
    && (s.wd.HeapSet? ==>
          && Popped(s, s.wd.entry, s.requests.deq)
          && s.armed[s.claims[s.wd.entry.position]].at + 1 == s.requests.deq)
    && (InDue(s.wd) ==> Popped(s, s.wd.entry, s.requests.deq) && s.wd.entry.fireAt <= s.clock)
    && (s.wd.Scan? ==> s.wd.now <= s.clock)
  }

  /** The watchdog has this position in its hand and has not yet decided about it. */
  predicate InWatchdogHand(s: State, pos: nat, at: nat) {
    || (s.wd.PopFree? && s.wd.at == at)
    || (s.wd.HeapSet? && s.wd.entry.position == pos)
    || ((s.wd.Due? || s.wd.Enter? || s.wd.Recheck? || s.wd.Compare? || s.wd.Decide?) && s.wd.entry.position == pos)
  }

  /** An armed message that is still unanswered is in the ring, in the heap or
      in the hand; an unarmed one is still with its callback. */
  ghost predicate Kept(s: State, m: nat)
    requires Shape(s) && m < Count(s)
  {
    && (s.armed[m].ArmedAt? && s.fates[m].Accepted? && s.tokens[m] == InSlot ==>
          || s.requests.deq <= s.armed[m].at
          || (MySlot(s, m) in s.heap && s.heap[MySlot(s, m)].position == s.fates[m].pos)
          || InWatchdogHand(s, s.fates[m].pos, s.armed[m].at))
    && (s.armed[m] == NotArmed && s.tokens[m] == InSlot ==> StillArming(s.pcs[m]))
  }

  ghost predicate Requests(s: State) {
    && Shape(s) && |s.arms| == s.requests.enq
    && (forall q :: 0 <= q < |s.arms| ==> ArmOk(s, q))
    && (forall m :: 0 <= m < Count(s) ==> ArmedOk(s, m))
    && (forall i :: 0 <= i < Cap(s) ==> RequestOk(s, i))
    && (forall q, r :: 0 <= q < r < |s.arms| ==> Later(s, q, r))
  }

  ghost predicate Holds(s: State) {
    && Shape(s) && WatchdogOk(s)
    && (forall k :: k in s.heap ==> HeapOk(s, k))
    && (forall m :: 0 <= m < Count(s) ==> Kept(s, m))
  }

  ghost predicate Inv(s: State) { Requests(s) && Holds(s) }

  // -------------------------------------------------------------- frames

  predicate SameArms(s: State, t: State) {
    && Shape(s) && Shape(t) && Cap(s) == Cap(t) && Count(s) == Count(t)
    && s.claims <= t.claims && t.requests == s.requests && t.reqs == s.reqs
    && t.arms == s.arms && t.armed == s.armed && t.heap == s.heap && t.wd == s.wd && s.clock <= t.clock
  }

  /** A callback moves, away from the request ring. */
  predicate CallbackMoves(s: State, t: State, m: nat) {
    && SameArms(s, t) && m < Count(s)
    && t.pcs == s.pcs[m := t.pcs[m]] && t.fates == s.fates[m := t.fates[m]] && t.fires == s.fires[m := t.fires[m]]
    && !Requesting(s.pcs[m]) && !Requesting(t.pcs[m])
    && (BeforeArm(t.pcs[m]) ==> BeforeArm(s.pcs[m]))
    && ((t.fates[m] == s.fates[m] && t.fires[m] == s.fires[m]) || BeforeArm(s.pcs[m]))
  }

  lemma CallbackKeepsRequests(s: State, t: State, m: nat)
    requires Claims(s) && Requests(s) && CallbackMoves(s, t, m)
    ensures Requests(t)
  {
    assert ArmedOk(s, m);
    forall q | 0 <= q < |t.arms| ensures ArmOk(t, q) { assert ArmOk(s, q); }
    forall j | 0 <= j < Count(t) ensures ArmedOk(t, j) { assert ArmedOk(s, j); }
    forall i | 0 <= i < Cap(t) ensures RequestOk(t, i) {
      assert RequestOk(s, i);
      if s.requests.cells[i].phase != Free { assert ArmOk(s, s.requests.cells[i].cur); }
    }
    forall q, r | 0 <= q < r < |t.arms| ensures Later(t, q, r) { assert Later(s, q, r); }
  }

  lemma CallbackKeepsHolds(s: State, t: State, m: nat)
    requires Claims(s) && Requests(s) && Holds(s) && CallbackMoves(s, t, m)
    requires forall j :: 0 <= j < Count(s) && t.tokens[j] == InSlot ==> s.tokens[j] == InSlot || (j == m && BeforeArm(s.pcs[m]))
    requires t.tokens[m] == InSlot && (StillArming(s.pcs[m]) || s.tokens[m] != InSlot) ==> StillArming(t.pcs[m])
    ensures Holds(t)
  {
    assert ArmedOk(s, m);
    forall k | k in t.heap ensures HeapOk(t, k) { assert HeapOk(s, k); }
    forall j | 0 <= j < Count(t) ensures Kept(t, j) { assert Kept(s, j); }
  }

  /** Nothing this layer reads changes, except that tokens may leave the slots. */
  lemma UntouchedKeeps(s: State, t: State)
    requires Claims(s) && Inv(s) && SameArms(s, t)
    requires t.pcs == s.pcs && t.fates == s.fates && t.fires == s.fires
    requires forall j :: 0 <= j < Count(s) && t.tokens[j] == InSlot ==> s.tokens[j] == InSlot
    ensures Inv(t)
  {
    forall q | 0 <= q < |t.arms| ensures ArmOk(t, q) { assert ArmOk(s, q); }
    forall j | 0 <= j < Count(t) ensures ArmedOk(t, j) && Kept(t, j) { assert ArmedOk(s, j) && Kept(s, j); }
    forall i | 0 <= i < Cap(t) ensures RequestOk(t, i) { assert RequestOk(s, i); }
    forall q, r | 0 <= q < r < |t.arms| ensures Later(t, q, r) { assert Later(s, q, r); }
    forall k | k in t.heap ensures HeapOk(t, k) { assert HeapOk(s, k); }
  }

  lemma ArriveKeeps(s: State, auth: bool, deadline: nat)
    requires Claims(s) && Inv(s)
    ensures Inv(Arrive(s, auth, deadline))
  {
    var t := Arrive(s, auth, deadline);
    forall q | 0 <= q < |t.arms| ensures ArmOk(t, q) { assert ArmOk(s, q); }
    forall j | 0 <= j < Count(t) ensures ArmedOk(t, j) && Kept(t, j) {
      if j < Count(s) { assert ArmedOk(s, j) && Kept(s, j); }
    }
    forall i | 0 <= i < Cap(t) ensures RequestOk(t, i) { assert RequestOk(s, i); }
    forall q, r | 0 <= q < r < |t.arms| ensures Later(t, q, r) { assert Later(s, q, r); }
    forall k | k in t.heap ensures HeapOk(t, k) { assert HeapOk(s, k); }
  }

  // -------------------------------------------------------------- arming

  /** A new request for a slot is later than every earlier one: the earlier
      ones were for positions already claimed, and this position is the last
      one claimed for its slot. */
  lemma NewRequestIsLater(s: State, m: nat, q: nat)
    requires Claims(s) && Build(s) && Requests(s) && m < Count(s) && s.pcs[m].ArmCas? && s.fates[m].Accepted? && q < |s.arms|
    requires At(s.arms[q], Cap(s)) == MySlot(s, m)
    ensures s.arms[q] < s.fates[m].pos
  {
    var p, i := s.fates[m].pos, MySlot(s, m);
    assert ArmOk(s, q) && FateOk(s, m) && BuildOk(s, m) && ArmedOk(s, m) && CellOk(s.queue, i);
    if p <= s.arms[q] { AtUnique(p, s.arms[q], Cap(s)); }
  }

  lemma ArmCasKeepsOrder(s: State, m: nat)
    requires Claims(s) && Build(s) && Requests(s) && CallbackReady(s, m) && s.pcs[m].ArmCas?
    ensures var arms := s.arms + [s.fates[m].pos];
      forall q, r :: 0 <= q < r < |arms| ==> (At(arms[q], Cap(s)) == At(arms[r], Cap(s)) ==> arms[q] < arms[r])
  {
    var arms := s.arms + [s.fates[m].pos];
    forall q, r | 0 <= q < r < |arms|
      ensures At(arms[q], Cap(s)) == At(arms[r], Cap(s)) ==> arms[q] < arms[r]
    {
      if r < |s.arms| { assert Later(s, q, r); }
      else if At(s.arms[q], Cap(s)) == MySlot(s, m) { NewRequestIsLater(s, m, q); }
    }
  }

  lemma ArmCasKeepsRequests(s: State, m: nat)
    requires Claims(s) && Pcs(s) && Build(s) && Requests(s) && CallbackReady(s, m) && s.pcs[m] == ArmCas(s.requests.enq)
    requires Claimable(s.requests)
    ensures Requests(DoArmCas(s, m, false))
  {
    var t := DoArmCas(s, m, false);
    ArmCasKeepsOrder(s, m);
    ClaimKeeps(s.requests);
    assert FateOk(s, m) && ArmedOk(s, m);
    hide Pcs, Build;
    forall q | 0 <= q < |t.arms| ensures ArmOk(t, q) { if q < |s.arms| { assert ArmOk(s, q); } }
    forall j | 0 <= j < Count(t) ensures ArmedOk(t, j) { assert ArmedOk(s, j); }
    forall i | 0 <= i < Cap(t) ensures RequestOk(t, i) {
      assert RequestOk(s, i);
      if s.requests.cells[i].phase != Free { assert ArmOk(s, s.requests.cells[i].cur); }
    }
    forall q, r | 0 <= q < r < |t.arms| ensures Later(t, q, r) {}
  }

  lemma ArmCasKeepsHolds(s: State, m: nat)
    requires Claims(s) && Requests(s) && Holds(s) && CallbackReady(s, m) && s.pcs[m] == ArmCas(s.requests.enq)
    requires Claimable(s.requests)
    ensures Holds(DoArmCas(s, m, false))
  {
    var t := DoArmCas(s, m, false);
    ClaimKeeps(s.requests);
    assert ArmedOk(s, m);
    forall k | k in t.heap ensures HeapOk(t, k) { assert HeapOk(s, k); }
    forall j | 0 <= j < Count(t) ensures Kept(t, j) { assert Kept(s, j); }
    if s.wd.PopFree? { RequestInHand(s); }
  }

  lemma RequestInHand(s: State)
    requires Claims(s) && Shape(s) && WatchdogOk(s) && s.wd.PopFree?
    requires s.requests.cells[At(s.requests.enq, Cap(s))] == Cell(s.requests.enq, s.requests.enq, Free)
    ensures At(s.wd.at, Cap(s)) != At(s.requests.enq, Cap(s))
  {}

  /** No two callbacks write or publish the same request cell. */
  lemma RequestersDiffer(s: State, m: nat, j: nat)
    requires Claims(s) && Requests(s) && m < Count(s) && j < Count(s) && m != j
    requires Requesting(s.pcs[m]) && Requesting(s.pcs[j])
    ensures At(s.pcs[m].at, Cap(s)) != At(s.pcs[j].at, Cap(s))
  {
    assert ArmedOk(s, m) && ArmedOk(s, j) && FateOk(s, m) && FateOk(s, j);
  }

  lemma ArmFillKeepsRequests(s: State, m: nat)
    requires Claims(s) && Build(s) && Handshake.Slots(s) && Requests(s) && CallbackReady(s, m) && s.pcs[m].ArmFill?
    ensures Requests(DoArmFill(s, m))
  {
    var t, i := DoArmFill(s, m), At(s.pcs[m].at, Cap(s));
    assert ArmedOk(s, m) && BuildOk(s, m) && FateOk(s, m) && Handshake.SlotOk(s, MySlot(s, m));
    forall q | 0 <= q < |t.arms| ensures ArmOk(t, q) { assert ArmOk(s, q); }
    forall j | 0 <= j < Count(t) ensures ArmedOk(t, j) {
      assert ArmedOk(s, j);
      if j != m && Requesting(s.pcs[j]) { RequestersDiffer(s, m, j); }
    }
    forall k | 0 <= k < Cap(t) ensures RequestOk(t, k) { assert RequestOk(s, k); }
    forall q, r | 0 <= q < r < |t.arms| ensures Later(t, q, r) { assert Later(s, q, r); }
  }

  lemma ArmFillKeepsHolds(s: State, m: nat)
    requires Claims(s) && Requests(s) && Holds(s) && CallbackReady(s, m) && s.pcs[m].ArmFill?
    ensures Holds(DoArmFill(s, m))
  {
    var t := DoArmFill(s, m);
    forall j | 0 <= j < Count(t) ensures Kept(t, j) { assert Kept(s, j); }
    forall k | k in t.heap ensures HeapOk(t, k) { assert HeapOk(s, k); }
  }

  lemma ArmPublishKeepsRing(s: State, m: nat)
    requires Claims(s) && Requests(s) && CallbackReady(s, m) && s.pcs[m].ArmPublish?
    ensures Rings.Inv(DoArmPublish(s, m).requests) && Onward(s.requests, DoArmPublish(s, m).requests)
  {
    assert ArmedOk(s, m);
    PublishKeeps(s.requests, At(s.pcs[m].at, Cap(s)));
  }

  lemma ArmPublishKeepsRequests(s: State, m: nat)
    requires Claims(s) && Requests(s) && CallbackReady(s, m) && s.pcs[m].ArmPublish?
    ensures Requests(DoArmPublish(s, m))
  {
    var t, i := DoArmPublish(s, m), At(s.pcs[m].at, Cap(s));
    assert ArmedOk(s, m) && FateOk(s, m);
    forall q | 0 <= q < |t.arms| ensures ArmOk(t, q) { assert ArmOk(s, q); }
    forall j | 0 <= j < Count(t) ensures ArmedOk(t, j) {
      assert ArmedOk(s, j);
      if j != m && Requesting(s.pcs[j]) { RequestersDiffer(s, m, j); }
    }
    forall k | 0 <= k < Cap(t) ensures RequestOk(t, k) {
      assert RequestOk(s, k);
      if k != i && s.requests.cells[k].phase == Claimed { assert CellOk(s.requests, k); }
    }
    forall q, r | 0 <= q < r < |t.arms| ensures Later(t, q, r) { assert Later(s, q, r); }
  }

  lemma ArmPublishKeepsHolds(s: State, m: nat)
    requires Claims(s) && Requests(s) && Holds(s) && CallbackReady(s, m) && s.pcs[m].ArmPublish?
    ensures Holds(DoArmPublish(s, m))
  {
    var t, i := DoArmPublish(s, m), At(s.pcs[m].at, Cap(s));
    assert ArmedOk(s, m);
    if s.wd.PopTake? { TakeKeeps(s.requests); }
    forall k | k in t.heap ensures HeapOk(t, k) { assert HeapOk(s, k); }
    forall j | 0 <= j < Count(t) ensures Kept(t, j) { assert Kept(s, j); }
  }

  // -------------------------------------------------------------- the watchdog

  /** The watchdog moves; heap, requests and tokens in slots can only shrink
      by what `Kept(t, ·)` allows. */
  lemma WatchdogKeeps(s: State, t: State)
    requires Claims(s) && Inv(s) && Shape(t)
    requires t.pcs == s.pcs && t.fates == s.fates && t.fires == s.fires && t.queue == s.queue && t.claims == s.claims
    requires t.requests == s.requests && t.reqs == s.reqs && t.arms == s.arms && t.armed == s.armed
    requires t.heap.Keys <= s.heap.Keys && forall k :: k in t.heap ==> t.heap[k] == s.heap[k]
    requires HeapBound(s) <= HeapBound(t) && WatchdogOk(t)
    requires forall m :: 0 <= m < Count(s) ==> Kept(t, m)
    ensures Inv(t)
  {
    forall q | 0 <= q < |t.arms| ensures ArmOk(t, q) { assert ArmOk(s, q); }
    forall j | 0 <= j < Count(t) ensures ArmedOk(t, j) { assert ArmedOk(s, j); }
    forall i | 0 <= i < Cap(t) ensures RequestOk(t, i) { assert RequestOk(s, i); }
    forall q, r | 0 <= q < r < |t.arms| ensures Later(t, q, r) { assert Later(s, q, r); }
    forall k | k in t.heap ensures HeapOk(t, k) { assert HeapOk(s, k); }
  }

  lemma PopTakeKeepsRequests(s: State)
    requires Claims(s) && Requests(s) && WatchdogOk(s) && s.wd.PopTake?
    ensures Requests(DoPopTake(s)) && Rings.Inv(DoPopTake(s).requests)
  {
    var t := DoPopTake(s);
    TakeKeeps(s.requests);
    forall q | 0 <= q < |t.arms| ensures ArmOk(t, q) { assert ArmOk(s, q); }
    forall j | 0 <= j < Count(t) ensures ArmedOk(t, j) { assert ArmedOk(s, j); }
    forall i | 0 <= i < Cap(t) ensures RequestOk(t, i) { assert RequestOk(s, i); }
    forall q, r | 0 <= q < r < |t.arms| ensures Later(t, q, r) { assert Later(s, q, r); }
  }

  lemma PopTakeKeepsHolds(s: State)
    requires Claims(s) && Holds(s) && s.wd.PopTake?
    ensures Holds(DoPopTake(s))
  {
    var t := DoPopTake(s);
    TakeKeeps(s.requests);
    forall k | k in t.heap ensures HeapOk(t, k) { assert HeapOk(s, k); }
    forall j | 0 <= j < Count(t) ensures Kept(t, j) { assert Kept(s, j); }
  }

  lemma PopFreeKeepsRequests(s: State)
    requires Claims(s) && Requests(s) && WatchdogOk(s) && s.wd.PopFree?
    ensures Requests(DoPopFree(s)) && Rings.Inv(DoPopFree(s).requests)
  {
    var t := DoPopFree(s);
    Rings.ReturnKeeps(s.requests, At(s.wd.at, Cap(s)));
    forall q | 0 <= q < |t.arms| ensures ArmOk(t, q) { assert ArmOk(s, q); }
    forall j | 0 <= j < Count(t) ensures ArmedOk(t, j) { assert ArmedOk(s, j); }
    forall i | 0 <= i < Cap(t) ensures RequestOk(t, i) { assert RequestOk(s, i); }
    forall q, r | 0 <= q < r < |t.arms| ensures Later(t, q, r) { assert Later(s, q, r); }
  }

  lemma PopFreeKeepsHolds(s: State)
    requires Claims(s) && Requests(s) && Holds(s) && s.wd.PopFree?
    ensures Holds(DoPopFree(s))
  {
    var t, i := DoPopFree(s), At(s.wd.at, Cap(s));
    assert RequestOk(s, i) && ArmOk(s, s.wd.at) && ClaimOk(s, s.arms[s.wd.at]);
    var m := s.claims[s.arms[s.wd.at]];
    assert FateOk(s, m) && ArmedOk(s, m);
    forall k | k in t.heap ensures HeapOk(t, k) { assert HeapOk(s, k); }
    forall j | 0 <= j < Count(t) ensures Kept(t, j) { assert Kept(s, j) && ArmedOk(s, j); }
  }

  /** A request put into the heap is newer than the entry it replaces. */
  lemma HeapSetIsNewer(s: State)
    requires Claims(s) && Inv(s) && s.wd.HeapSet? && s.wd.entry.slot in s.heap
    ensures s.heap[s.wd.entry.slot].position < s.wd.entry.position
  {
    var e, old' := s.wd.entry, s.heap[s.wd.entry.slot];
    assert HeapOk(s, e.slot);
    var m, m' := s.claims[e.position], s.claims[old'.position];
    assert ArmedOk(s, m) && ArmedOk(s, m');
    assert Later(s, s.armed[m'].at, s.armed[m].at);
  }

  /** The entry that heap_set replaces belongs to a message already answered. */
  lemma ReplacedIsAnswered(s: State, m: nat)
    requires Claims(s) && Tokens.Inv(s) && Inv(s) && s.wd.HeapSet?
    requires m < Count(s) && s.fates[m].Accepted? && MySlot(s, m) == s.wd.entry.slot
    requires MySlot(s, m) in s.heap && s.heap[MySlot(s, m)].position == s.fates[m].pos
    ensures s.tokens[m] != InSlot
  {
    HeapSetIsNewer(s);
    var p, p' := s.fates[m].pos, s.wd.entry.position;
    assert MsgToken(s, m) && CellOk(s.queue, MySlot(s, m));
    if s.tokens[m] == InSlot { AtUnique(p, p', Cap(s)); }
  }

  lemma HeapSetKeeps(s: State)
    requires Claims(s) && Tokens.Inv(s) && Inv(s) && s.wd.HeapSet?
    ensures Holds(DoHeapSet(s))
  {
    var t, e := DoHeapSet(s), s.wd.entry;
    forall k | k in t.heap ensures HeapOk(t, k) { if k in s.heap { assert HeapOk(s, k); } }
    forall m | 0 <= m < Count(t) ensures Kept(t, m) {
      assert Kept(s, m);
      if s.fates[m].Accepted? && MySlot(s, m) == e.slot
        && e.slot in s.heap && s.heap[e.slot].position == s.fates[m].pos {
        ReplacedIsAnswered(s, m);
      }
    }
  }

  lemma HeapSetKeepsRequests(s: State)
    requires Claims(s) && Requests(s) && s.wd.HeapSet?
    ensures Requests(DoHeapSet(s))
  {
    var t := DoHeapSet(s);
    forall q | 0 <= q < |t.arms| ensures ArmOk(t, q) { assert ArmOk(s, q); }
    forall j | 0 <= j < Count(t) ensures ArmedOk(t, j) { assert ArmedOk(s, j); }
    forall i | 0 <= i < Cap(t) ensures RequestOk(t, i) { assert RequestOk(s, i); }
    forall q, r | 0 <= q < r < |t.arms| ensures Later(t, q, r) { assert Later(s, q, r); }
  }

  /** Everything in the hand stays in the hand. */
  lemma HandKeeps(s: State, t: State)
    requires Shape(s) && Shape(t) && Cap(s) == Cap(t) && Count(s) == Count(t)
    requires t.armed == s.armed && t.fates == s.fates && t.requests.deq == s.requests.deq
    requires forall m :: 0 <= m < Count(s) ==> Kept(s, m)
    requires forall m :: 0 <= m < Count(s) && t.tokens[m] == InSlot ==> s.tokens[m] == InSlot
    requires t.heap == s.heap && t.pcs == s.pcs
    requires forall pos: nat, at: nat :: InWatchdogHand(s, pos, at) ==> InWatchdogHand(t, pos, at)
    ensures forall m :: 0 <= m < Count(t) ==> Kept(t, m)
  {
    forall m | 0 <= m < Count(t) ensures Kept(t, m) { assert Kept(s, m); }
  }

  /** An armed message whose token is parked shows as occupied, at its own
      position and pending: none of the watchdog's tests can miss it. */
  lemma PendingIsVisible(s: State, m: nat)
    requires Structure.Inv(s) && Handshake.Inv(s) && Tokens.Inv(s) && Lifecycle.Inv(s) && Inv(s)
    requires m < Count(s) && s.armed[m].ArmedAt? && s.tokens[m] == InSlot
    ensures s.fates[m].Accepted?
    ensures var d := s.slots[MySlot(s, m)]; d.occupied && d.position == s.fates[m].pos && d.answer == Pending
  {
    assert ArmedOk(s, m) && MsgToken(s, m);
    var i := MySlot(s, m);
    assert SlotToken(s, i) && Handshake.SlotOk(s, i) && ClaimedOk(s, i) && BuildOk(s, m) && FateOk(s, m);
  }
}
