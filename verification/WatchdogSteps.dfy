/** Every step of the watchdog thread keeps the invariant.

    Outside answer_due the watchdog only moves requests from the ring into its hand
    and from there into the heap, and roots out of the heap (`IdleKeeps`,
    `PopTakeKeeps`, `PopFreeKeeps`, `HeapSetKeeps`, `ScanTakeKeeps`).  In answer_due it
    goes through a series of tests.  `MissKeeps` covers a test that fails: no message
    that is still open can be dropped that way.  `DueKeeps`, `EnterKeeps`,
    `RecheckKeeps` and `CompareKeeps` cover the tests that succeed, and `DecideWins`
    the compare-and-swap of the answer word. */
module WatchdogSteps {
  import opened Rings
  import opened Protocol
  import opened Structure
  import Handshake
  import Tokens
  import Lifecycle
  import Ownership
  import Arming
  import Wakeup
  import Counters
  import opened Steps

  // -------------------------------------------------------------- moves that leave the slots alone

  /** The watchdog moves and may shrink its heap or count a timeout. */
  predicate Shifts(s: State, t: State) {
    && Shape(s)
    && t == s.(wd := t.wd, heap := t.heap, timeouts := t.timeouts)
    && !s.wd.Send? && !t.wd.Send? && s.wd != Gone
    && Lifecycle.Ended(t.wd) == Lifecycle.Ended(s.wd)
    && (t.wd == Exit ==> !s.running)
    && (t.wd == Delete || t.wd == Gone ==> s.deleteReady)
    && s.wd.TimeoutWrite? == t.wd.TimeoutWrite?
  }

  lemma ShiftKeepsCore(s: State, t: State)
    requires Core(s) && Shifts(s, t)
    requires forall i :: 0 <= i < Cap(s) ==> Handshake.Reads(t.wd, i) == Handshake.Reads(s.wd, i)
    requires Handshake.Watch(t)
    ensures Core(t)
  {
    UntouchedKeeps(s, t);
    Handshake.WatchdogMoveKeeps(s, t);
    Tokens.FrameKeeps(s, t);
    Lifecycle.UntouchedKeeps(s, t);
  }

  lemma ShiftKeepsRest(s: State, t: State)
    requires Core(s) && Core(t) && Rest(s) && Shifts(s, t)
    requires t.heap.Keys <= s.heap.Keys && forall k :: k in t.heap ==> t.heap[k] == s.heap[k]
    requires Arming.HeapBound(s) <= Arming.HeapBound(t) && Arming.WatchdogOk(t)
    requires forall m :: 0 <= m < Count(t) ==> Arming.Kept(t, m)
    requires Counters.Totals(t)
    ensures Rest(t)
  {
    Ownership.FrameKeeps(s, t);
    Arming.WatchdogKeeps(s, t);
    Wakeup.FrameKeeps(s, t);
    Counters.OtherKeeps(s, t);
  }

  /** Moves outside answer_due: nothing is in the hand before or after. */
  predicate Idles(pc: WatchdogPc) {
    pc.Top? || pc.PopRead? || pc.Clock? || pc.Sleep? || pc.Exit? || pc.AwaitDelete? || pc.Delete? || pc.Scan?
  }

  lemma IdleKeeps(s: State, t: State)
    requires Good(s) && Shifts(s, t) && t == s.(wd := t.wd) && Idles(s.wd)
    requires Idles(t.wd) || t.wd == Gone || (t.wd.PopTake? && Takeable(s.requests))
    requires t.wd.Scan? ==> t.wd.now <= t.clock
    ensures Good(t)
  {
    hide Claims, Pcs, Build, Handshake.Slots, Handshake.Hand;
    hide Tokens.Inv, Ownership.Inv, Arming.Requests, Wakeup.Inv;
    ShiftKeepsCore(s, t);
    Arming.HandKeeps(s, t);
    ShiftKeepsRest(s, t);
  }

  lemma TopKeeps(s: State)
    requires Good(s) && s.wd.Top?
    ensures Good(DoTop(s))
  {
    IdleKeeps(s, DoTop(s));
  }

  lemma PopReadKeeps(s: State)
    requires Good(s) && s.wd.PopRead?
    ensures Good(DoPopRead(s))
  {
    IdleKeeps(s, DoPopRead(s));
  }

  lemma ClockKeeps(s: State)
    requires Good(s) && s.wd.Clock?
    ensures Good(DoClock(s))
  {
    IdleKeeps(s, DoClock(s));
  }

  lemma SleepKeeps(s: State)
    requires Good(s) && s.wd.Sleep?
    ensures Good(Wd(s, Top))
  {
    IdleKeeps(s, Wd(s, Top));
  }

  lemma DeleteKeeps(s: State)
    requires Good(s) && s.wd.Delete?
    ensures Good(Wd(s, Gone))
  {
    IdleKeeps(s, Wd(s, Gone));
  }

  lemma AwaitDeleteKeeps(s: State)
    requires Good(s) && s.wd.AwaitDelete?
    ensures Good(DoAwaitDelete(s))
  {
    IdleKeeps(s, DoAwaitDelete(s));
  }

  lemma ScanEndKeeps(s: State, k: nat)
    requires Good(s) && CanScan(s, k) && !(s.heap != map[] && s.heap[k].fireAt <= s.wd.now)
    ensures Good(DoScan(s, k))
  {
    IdleKeeps(s, DoScan(s, k));
  }

  lemma ScanTakeHolds(s: State, t: State, k: nat)
    requires Arming.Holds(s) && k in s.heap && Shape(t)
    requires s.wd.Scan? && s.heap[k].fireAt <= s.wd.now && t == s.(wd := Due(s.heap[k]), heap := s.heap - {k})
    ensures forall m :: 0 <= m < Count(t) ==> Arming.Kept(t, m)
    ensures Arming.WatchdogOk(t) && s.heap[k].slot < Cap(s)
  {
    assert Arming.HeapOk(s, k);
    forall m | 0 <= m < Count(t) ensures Arming.Kept(t, m) { assert Arming.Kept(s, m); }
  }

  /** The root leaves the heap for the watchdog's hand. */
  lemma ScanTakeKeeps(s: State, k: nat)
    requires Good(s) && CanScan(s, k) && s.heap != map[] && s.heap[k].fireAt <= s.wd.now
    ensures Good(DoScan(s, k))
  {
    hide Claims, Pcs, Build, Handshake.Slots, Handshake.Hand;
    hide Tokens.Inv, Lifecycle.Swept, Lifecycle.Active, Ownership.Inv, Arming.Requests, Wakeup.Inv;
    var t := DoScan(s, k);
    ScanTakeHolds(s, t, k);
    ShiftKeepsCore(s, t);
    ShiftKeepsRest(s, t);
  }

  // -------------------------------------------------------------- the tests of answer_due

  /** A test fails: the entry's message cannot be pending. */
  predicate Misses(s: State)
    requires InDue(s.wd)
  {
    var e := s.wd.entry;
    e.slot < |s.slots| &&
    var d := s.slots[e.slot];
    || (s.wd.Due? && !d.occupied)
    || (s.wd.Recheck? && !d.occupied)
    || (s.wd.Compare? && d.position != e.position)
    || (s.wd.Decide? && d.answer != Pending)
  }

  lemma MissIsAnswered(s: State, m: nat)
    requires Good(s) && InDue(s.wd) && Misses(s) && m < Count(s)
    requires s.armed[m].ArmedAt? && s.tokens[m] == InSlot && s.fates[m].Accepted?
    ensures s.fates[m].pos != s.wd.entry.position
  {
    Arming.PendingIsVisible(s, m);
    assert Arming.ArmedOk(s, m) && FateOk(s, m);
  }

  lemma MissKeepsHand(s: State, t: State)
    requires Good(s) && InDue(s.wd) && Misses(s)
    requires t == s.(wd := t.wd)
    ensures forall m :: 0 <= m < Count(t) ==> Arming.Kept(t, m)
  {
    forall m | 0 <= m < Count(t) ensures Arming.Kept(t, m) {
      assert Arming.Kept(s, m);
      if s.armed[m].ArmedAt? && s.tokens[m] == InSlot && s.fates[m].Accepted? { MissIsAnswered(s, m); }
    }
  }

  lemma MissKeeps(s: State, t: State)
    requires Good(s) && InDue(s.wd) && Misses(s)
    requires t == Wd(s, if s.wd.Due? then Clock else Unread(s.wd.entry))
    ensures Good(t)
  {
    ShiftKeepsCore(s, t);
    MissKeepsHand(s, t);
    ShiftKeepsRest(s, t);
  }

  // -------------------------------------------------------------- the way through answer_due

  /** A test succeeds, or a step of the way out that touches no slot. */
  lemma PassKeeps(s: State, t: State)
    requires Good(s) && InDue(s.wd) && InDue(t.wd) && t.wd.entry == s.wd.entry && t == s.(wd := t.wd, timeouts := t.timeouts)
    requires !s.wd.Send? && !t.wd.Send? && !s.wd.TimeoutWrite? && !t.wd.TimeoutWrite?
    requires forall i :: 0 <= i < Cap(s) ==> Handshake.Reads(t.wd, i) == Handshake.Reads(s.wd, i)
    requires Handshake.Watch(t) && Counters.Totals(t)
    requires forall pos: nat, at: nat :: Arming.InWatchdogHand(s, pos, at) ==> Arming.InWatchdogHand(t, pos, at)
    ensures Good(t)
  {
    hide Claims, Pcs, Build, Handshake.Slots, Handshake.Hand;
    hide Handshake.Watch, Ownership.Inv, Arming.Requests, Wakeup.Inv;
    ShiftKeepsCore(s, t);
    Arming.HandKeeps(s, t);
    ShiftKeepsRest(s, t);
  }

  lemma DueKeeps(s: State)
    requires Good(s) && s.wd.Due? && WatchdogAt(s, s.wd.entry) && s.slots[s.wd.entry.slot].occupied
    ensures Good(DoDue(s, s.wd.entry))
  {
    PassKeeps(s, DoDue(s, s.wd.entry));
  }

  /** The recheck finds the slot occupied while the watchdog counts as its reader:
      from here on the slot cannot change hands. */
  lemma RecheckKeeps(s: State)
    requires Good(s) && s.wd.Recheck? && WatchdogAt(s, s.wd.entry) && s.slots[s.wd.entry.slot].occupied
    ensures Good(DoRecheck(s, s.wd.entry))
  {
    assert Handshake.SlotOk(s, s.wd.entry.slot);
    PassKeeps(s, DoRecheck(s, s.wd.entry));
  }

  lemma CompareKeeps(s: State)
    requires Good(s) && s.wd.Compare? && s.slots[s.wd.entry.slot].position == s.wd.entry.position
    ensures Good(DoCompare(s, s.wd.entry))
  {
    PassKeeps(s, DoCompare(s, s.wd.entry));
  }

  lemma CountTimeoutKeeps(s: State)
    requires Good(s) && s.wd.CountTimeout?
    ensures Good(DoCountTimeout(s, s.wd.entry))
  {
    PassKeeps(s, DoCountTimeout(s, s.wd.entry));
  }

  /** The reader count rises or falls. */
  lemma ReaderKeepsCore(s: State, t: State, i: nat)
    requires Core(s) && InDue(s.wd) && i == s.wd.entry.slot < Cap(s) && !s.wd.Send? && !t.wd.Send? && !Lifecycle.Ended(t.wd)
    requires t.wd != Exit
    requires Shape(t) && Cap(t) == Cap(s)
    requires t == s.(wd := t.wd, slots := s.slots[i := s.slots[i].(readers := t.slots[i].readers)])
    requires forall j :: 0 <= j < Cap(s) && j != i ==> Handshake.Reads(t.wd, j) == Handshake.Reads(s.wd, j)
    requires Handshake.ReaderOk(t, i) && Handshake.Watch(t)
    ensures Core(t)
  {
    UntouchedKeeps(s, t);
    Handshake.WatchdogSlotKeeps(s, t, i);
    Tokens.FrameKeeps(s, t);
    Lifecycle.UntouchedKeeps(s, t);
  }

  lemma ReaderKeepsRest(s: State, t: State, i: nat)
    requires Good(s) && Core(t) && InDue(s.wd) && i == s.wd.entry.slot < Cap(s)
    requires s.wd.Enter? || s.wd.Unread?
    requires t.wd == (if s.wd.Enter? then Recheck(s.wd.entry) else Clock)
    requires Cap(t) == Cap(s)
    requires t == s.(wd := t.wd, slots := s.slots[i := s.slots[i].(readers := t.slots[i].readers)])
    ensures Rest(t)
  {
    hide Rings.Inv, Claims, Pcs, Build, Handshake.Slots, Handshake.Watch, Handshake.Hand, Tokens.Inv, Lifecycle.Inv;
    Ownership.FrameKeeps(s, t);
    Arming.HandKeeps(s, t);
    Arming.WatchdogKeeps(s, t);
    Wakeup.FrameKeeps(s, t);
    Counters.OtherKeeps(s, t);
  }

  lemma EnterKeeps(s: State)
    requires Good(s) && s.wd.Enter? && WatchdogAt(s, s.wd.entry)
    ensures Good(DoEnter(s, s.wd.entry))
  {
    var t, i := DoEnter(s, s.wd.entry), s.wd.entry.slot;
    assert Handshake.ReaderOk(s, i);
    ReaderKeepsCore(s, t, i);
    ReaderKeepsRest(s, t, i);
  }

  lemma UnreadKeeps(s: State)
    requires Good(s) && s.wd.Unread? && WatchdogAt(s, s.wd.entry)
    ensures Good(DoUnread(s, s.wd.entry))
  {
    var t, i := DoUnread(s, s.wd.entry), s.wd.entry.slot;
    assert Handshake.ReaderOk(s, i);
    ReaderKeepsCore(s, t, i);
    ReaderKeepsRest(s, t, i);
  }

  // -------------------------------------------------------------- answering

  lemma DecideWinsCore(s: State)
    requires Core(s) && s.wd.Decide? && s.slots[s.wd.entry.slot].answer == Pending
    ensures Core(DoDecide(s, s.wd.entry))
  {
    var t, i := DoDecide(s, s.wd.entry), s.wd.entry.slot;
    assert Handshake.ReaderOk(s, i);
    UntouchedKeeps(s, t);
    Handshake.WatchdogSlotKeeps(s, t, i);
    Tokens.WinKeeps(s, t, i, ByWatchdog);
    Lifecycle.UntouchedKeeps(s, t);
  }

  /** The watchdog wins the answer: the message is decided. */
  lemma DecideWins(s: State)
    requires Good(s) && s.wd.Decide? && s.slots[s.wd.entry.slot].answer == Pending
    ensures Good(DoDecide(s, s.wd.entry))
  {
    var t, i := DoDecide(s, s.wd.entry), s.wd.entry.slot;
    DecideWinsCore(s);
    WinKeepsHand(s);
    DecideWinsRest(s, t);
  }

  lemma DecideWinsRest(s: State, t: State)
    requires Good(s) && Core(t) && s.wd.Decide? && s.slots[s.wd.entry.slot].answer == Pending
    requires t == DoDecide(s, s.wd.entry) && forall m :: 0 <= m < Count(t) ==> Arming.Kept(t, m)
    ensures Rest(t)
  {
    hide Rings.Inv, Claims, Pcs, Build, Handshake.Slots, Handshake.Hand, Tokens.Inv, Lifecycle.Inv;
    Ownership.FrameKeeps(s, t);
    Arming.WatchdogKeeps(s, t);
    Wakeup.FrameKeeps(s, t);
    Counters.OtherKeeps(s, t);
  }

  lemma WinKeepsHand(s: State)
    requires Good(s) && s.wd.Decide? && s.slots[s.wd.entry.slot].answer == Pending
    ensures forall m :: 0 <= m < Count(s) ==> Arming.Kept(DoDecide(s, s.wd.entry), m)
  {
    var t, i := DoDecide(s, s.wd.entry), s.wd.entry.slot;
    assert Handshake.SlotOk(s, i);
    forall m | 0 <= m < Count(s) ensures Arming.Kept(t, m) {
      assert Arming.Kept(s, m) && FateOk(s, m);
    }
  }

  lemma SendKeepsCore(s: State)
    requires Core(s) && s.wd.Send?
    ensures s.slots[s.wd.entry.slot].message < Count(s)
    ensures s.tokens[s.slots[s.wd.entry.slot].message] == InHand(ByWatchdog)
    ensures Core(DoSend(s, s.wd.entry))
  {
    var t, m := DoSend(s, s.wd.entry), s.slots[s.wd.entry.slot].message;
    Tokens.SendersAreOld(s);
    assert Tokens.MsgToken(s, m);
    UntouchedKeeps(s, t);
    Handshake.WatchdogMoveKeeps(s, t);
    Tokens.SendKeeps(s, t, m, ByWatchdog);
    Lifecycle.UntouchedKeeps(s, t);
  }

  lemma SendKeeps(s: State)
    requires Good(s) && s.wd.Send?
    ensures Good(DoSend(s, s.wd.entry))
  {
    hide Rings.Inv, Claims, Pcs, Build, Handshake.Slots, Handshake.Hand, Tokens.Inv, Lifecycle.Inv;
    SendKeepsCore(s);
    var t := DoSend(s, s.wd.entry);
    Ownership.FrameKeeps(s, t);
    Arming.HandKeeps(s, t);
    Arming.WatchdogKeeps(s, t);
    Wakeup.FrameKeeps(s, t);
    Counters.OtherKeeps(s, t);
  }

  // -------------------------------------------------------------- the timeout's wakeup

  lemma WakeKeepsCore(s: State, t: State)
    requires Core(s) && (s.wd.TimeoutNotify? || s.wd.TimeoutWrite?)
    requires t.wd == Unread(s.wd.entry) || t.wd == TimeoutWrite(s.wd.entry)
    requires t == s.(wd := t.wd, notified := t.notified, pipe := t.pipe)
    ensures Core(t)
  {
    UntouchedKeeps(s, t);
    Handshake.WatchdogMoveKeeps(s, t);
    Tokens.FrameKeeps(s, t);
    Lifecycle.UntouchedKeeps(s, t);
  }

  lemma WakeKeepsRest(s: State, t: State)
    requires Good(s) && Core(t) && Wakeup.Inv(t) && (s.wd.TimeoutNotify? || s.wd.TimeoutWrite?)
    requires t.wd == Unread(s.wd.entry) || t.wd == TimeoutWrite(s.wd.entry)
    requires t == s.(wd := t.wd, notified := t.notified, pipe := t.pipe)
    ensures Rest(t)
  {
    hide Rings.Inv, Claims, Pcs, Build, Handshake.Slots, Handshake.Hand, Tokens.Inv, Lifecycle.Inv, Wakeup.Inv;
    Ownership.FrameKeeps(s, t);
    Arming.HandKeeps(s, t);
    Arming.WatchdogKeeps(s, t);
    Counters.OtherKeeps(s, t);
  }

  lemma TimeoutNotifyKeeps(s: State)
    requires Good(s) && s.wd.TimeoutNotify?
    ensures Good(DoTimeoutNotify(s, s.wd.entry))
  {
    var t := DoTimeoutNotify(s, s.wd.entry);
    assert Wakeup.CallbackWrites(t) == Wakeup.CallbackWrites(s);
    Wakeup.RaisedKeeps(s, t);
    WakeKeepsCore(s, t);
    WakeKeepsRest(s, t);
  }

  lemma TimeoutWriteKeeps(s: State)
    requires Good(s) && s.wd.TimeoutWrite?
    ensures Good(DoTimeoutWrite(s, s.wd.entry))
  {
    var t := DoTimeoutWrite(s, s.wd.entry);
    Wakeup.WriteKeeps(s, t);
    WakeKeepsCore(s, t);
    WakeKeepsRest(s, t);
  }

  // -------------------------------------------------------------- requests and heap

  /** The watchdog works on requests or heap only. */
  predicate Pops(s: State, t: State) {
    && Shape(s) && Shape(t)
    && t == s.(wd := t.wd, heap := t.heap, requests := t.requests)
    && (s.wd.PopTake? || s.wd.PopFree? || s.wd.HeapSet?) && (t.wd.PopFree? || t.wd.HeapSet? || t.wd.PopRead?)
  }

  lemma PopKeepsCore(s: State, t: State)
    requires Core(s) && Pops(s, t) && Rings.Inv(t.requests) && Onward(s.requests, t.requests)
    ensures Core(t)
  {
    UntouchedKeeps(s, t);
    Handshake.WatchdogMoveKeeps(s, t);
    Tokens.FrameKeeps(s, t);
    Lifecycle.UntouchedKeeps(s, t);
  }

  lemma PopKeepsRest(s: State, t: State)
    requires Good(s) && Core(t) && Pops(s, t)
    requires Arming.Requests(t) && Arming.Holds(t)
    ensures Rest(t)
  {
    Ownership.FrameKeeps(s, t);
    Wakeup.FrameKeeps(s, t);
    Counters.OtherKeeps(s, t);
  }

  lemma PopTakeKeeps(s: State)
    requires Good(s) && s.wd.PopTake?
    ensures Good(DoPopTake(s))
  {
    hide Claims, Pcs, Build, Handshake.Slots, Handshake.Hand;
    hide Tokens.Inv, Lifecycle.Inv, Ownership.Inv, Wakeup.Inv, Counters.Inv;
    var t := DoPopTake(s);
    TakeKeeps(s.requests);
    Arming.PopTakeKeepsRequests(s);
    Arming.PopTakeKeepsHolds(s);
    PopKeepsCore(s, t);
    PopKeepsRest(s, t);
  }

  lemma PopFreeKeeps(s: State)
    requires Good(s) && s.wd.PopFree?
    ensures Good(DoPopFree(s))
  {
    hide Claims, Pcs, Build, Handshake.Slots, Handshake.Hand;
    hide Tokens.Inv, Lifecycle.Inv, Ownership.Inv, Wakeup.Inv, Counters.Inv;
    var t := DoPopFree(s);
    Rings.ReturnKeeps(s.requests, At(s.wd.at, Cap(s)));
    Arming.PopFreeKeepsRequests(s);
    Arming.PopFreeKeepsHolds(s);
    PopKeepsCore(s, t);
    PopKeepsRest(s, t);
  }

  lemma HeapSetKeeps(s: State)
    requires Good(s) && s.wd.HeapSet?
    ensures Good(DoHeapSet(s))
  {
    hide Claims, Pcs, Build, Handshake.Slots, Handshake.Hand;
    hide Tokens.Inv, Lifecycle.Inv, Ownership.Inv, Wakeup.Inv, Counters.Inv;
    var t := DoHeapSet(s);
    Arming.HeapSetKeepsRequests(s);
    Arming.HeapSetKeeps(s);
    PopKeepsCore(s, t);
    PopKeepsRest(s, t);
  }

  lemma ExitKeeps(s: State)
    requires Good(s) && s.wd.Exit?
    ensures Good(DoExit(s))
  {
    var t := DoExit(s);
    UntouchedKeeps(s, t);
    Handshake.WatchdogMoveKeeps(s, t);
    Tokens.FrameKeeps(s, t);
    Lifecycle.ExitKeeps(s);
    ExitKeepsRest(s, t);
  }

  lemma ExitKeepsRest(s: State, t: State)
    requires Good(s) && s.wd.Exit? && t == DoExit(s) && Core(t)
    ensures Rest(t)
  {
    Ownership.FrameKeeps(s, t);
    Arming.HandKeeps(s, t);
    Arming.WatchdogKeeps(s, t);
    Wakeup.FrameKeeps(s, t);
    Counters.OtherKeeps(s, t);
  }
}
