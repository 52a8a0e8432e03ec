/** What the steps do beside keeping the invariant. */
module Effects {
  import opened Rings
  import opened Words
  import opened Protocol
  import opened Ranks
  import Handshake
  import Wakeup

  // -------------------------------------------------------------- callbacks

  /** The step leaves Ruby and its wrappers alone. */
  predicate LeavesRuby(s: State, t: State) {
    t.ruby == s.ruby && t.wrappers == s.wrappers && t.broken == s.broken && t.closed == s.closed && t.auth == s.auth
  }

  /** What a load of a current position tells: it is not past its sequence number. */
  predicate OwnPositions(s: State, m: nat)
    requires CallbackReady(s, m)
  {
    && (s.pcs[m].EnqRead? && s.pcs[m].pos == s.queue.enq ==>
          s.queue.cells[At(s.pcs[m].pos, Cap(s))].sequence <= s.pcs[m].pos)
    && (s.pcs[m].ArmRead? && s.pcs[m].at == s.requests.enq ==>
          s.requests.cells[At(s.pcs[m].at, Cap(s))].sequence <= s.pcs[m].at)
  }

  /** A callback moves alone, is counted out when it returns, raises the flag at its
      compare-and-swap, and owes a byte from there to its write exactly if it was the
      one to raise it.  Unless a compare-and-swap fails for no reason, it gets nearer
      to its return. */
  predicate CallbackEffect(s: State, t: State, m: nat, spurious: bool) {
    && LeavesRuby(s, t) && t.wd == s.wd
    && m < |s.pcs| == |t.pcs| && t.pcs == s.pcs[m := t.pcs[m]]
    && t.active == s.active - (if s.pcs[m] == Leave then 1 else 0) && (t.pcs[m] == Done <==> s.pcs[m] == Leave)
    && t.notified == (s.notified || s.pcs[m] == NotifyCas)
    && (t.pcs[m] == NotifyWrite <==> s.pcs[m] == NotifyCas && !s.notified)
    && t.pipe == s.pipe + (if s.pcs[m] == NotifyWrite then 1 else 0)
    && (spurious || CallbackNears(s, t, m))
  }

  lemma CheckRefusesEffect(s: State, m: nat, spurious: bool)
    requires CallbackReady(s, m) && s.pcs[m].Check? && s.closed
    ensures CallbackEffect(s, DoCheck(s, m), m, spurious)
  {}

  lemma CheckPassesEffect(s: State, m: nat, spurious: bool)
    requires CallbackReady(s, m) && s.pcs[m].Check? && !(s.closed)
    ensures CallbackEffect(s, DoCheck(s, m), m, spurious)
  {}

  lemma RefuseEffect(s: State, m: nat, spurious: bool)
    requires CallbackReady(s, m) && s.pcs[m].Refuse?
    ensures CallbackEffect(s, DoRefuse(s, m), m, spurious)
  {}

  lemma RetainEffect(s: State, m: nat, spurious: bool)
    requires CallbackReady(s, m) && s.pcs[m].Retain?
    ensures CallbackEffect(s, DoRetain(s, m), m, spurious)
  {}

  lemma EnqLoadEffect(s: State, m: nat, spurious: bool)
    requires CallbackReady(s, m) && s.pcs[m].EnqLoad?
    ensures CallbackEffect(s, DoEnqLoad(s, m), m, spurious)
  {}

  lemma EnqReadEffect(s: State, m: nat, spurious: bool)
    requires CallbackReady(s, m) && s.pcs[m].EnqRead?
    requires OwnPositions(s, m)
    ensures CallbackEffect(s, DoEnqRead(s, m), m, spurious)
  {}

  lemma EnqClaimsEffect(s: State, m: nat, spurious: bool)
    requires CallbackReady(s, m) && s.pcs[m].EnqCas? && s.pcs[m].pos == s.queue.enq && !spurious
    ensures CallbackEffect(s, DoEnqCas(s, m, spurious), m, spurious)
  {}

  lemma EnqRetriesEffect(s: State, m: nat, spurious: bool)
    requires CallbackReady(s, m) && s.pcs[m].EnqCas? && !(s.pcs[m].pos == s.queue.enq && !spurious)
    ensures CallbackEffect(s, DoEnqCas(s, m, spurious), m, spurious)
  {}

  lemma FullEffect(s: State, m: nat, spurious: bool)
    requires CallbackReady(s, m) && s.pcs[m].Full?
    ensures CallbackEffect(s, DoFull(s, m), m, spurious)
  {}

  lemma FullCountEffect(s: State, m: nat, spurious: bool)
    requires CallbackReady(s, m) && s.pcs[m].FullCount?
    ensures CallbackEffect(s, DoFullCount(s, m), m, spurious)
  {}

  lemma FullReleaseEffect(s: State, m: nat, spurious: bool)
    requires CallbackReady(s, m) && s.pcs[m].FullRelease?
    ensures CallbackEffect(s, DoFullRelease(s, m), m, spurious)
  {}

  lemma FillEffect(s: State, m: nat, spurious: bool)
    requires CallbackReady(s, m) && s.pcs[m].Fill?
    ensures CallbackEffect(s, DoFill(s, m), m, spurious)
  {}

  lemma SetAnswerEffect(s: State, m: nat, spurious: bool)
    requires CallbackReady(s, m) && s.pcs[m].SetAnswer?
    ensures CallbackEffect(s, DoSetAnswer(s, m), m, spurious)
  {}

  lemma SetOccupiedEffect(s: State, m: nat, spurious: bool)
    requires CallbackReady(s, m) && s.pcs[m].SetOccupied?
    ensures CallbackEffect(s, DoSetOccupied(s, m), m, spurious)
  {}

  lemma ArmLoadEffect(s: State, m: nat, spurious: bool)
    requires CallbackReady(s, m) && s.pcs[m].ArmLoad?
    ensures CallbackEffect(s, DoArmLoad(s, m), m, spurious)
  {}

  lemma ArmReadEffect(s: State, m: nat, spurious: bool)
    requires CallbackReady(s, m) && s.pcs[m].ArmRead?
    requires OwnPositions(s, m)
    ensures CallbackEffect(s, DoArmRead(s, m), m, spurious)
  {}

  lemma ArmClaimsEffect(s: State, m: nat, spurious: bool)
    requires CallbackReady(s, m) && s.pcs[m].ArmCas? && s.pcs[m].at == s.requests.enq && !spurious
    ensures CallbackEffect(s, DoArmCas(s, m, spurious), m, spurious)
  {}

  lemma ArmRetriesEffect(s: State, m: nat, spurious: bool)
    requires CallbackReady(s, m) && s.pcs[m].ArmCas? && !(s.pcs[m].at == s.requests.enq && !spurious)
    ensures CallbackEffect(s, DoArmCas(s, m, spurious), m, spurious)
  {}

  lemma ArmFillEffect(s: State, m: nat, spurious: bool)
    requires CallbackReady(s, m) && s.pcs[m].ArmFill?
    ensures CallbackEffect(s, DoArmFill(s, m), m, spurious)
  {}

  lemma ArmPublishEffect(s: State, m: nat, spurious: bool)
    requires CallbackReady(s, m) && s.pcs[m].ArmPublish?
    ensures CallbackEffect(s, DoArmPublish(s, m), m, spurious)
  {}

  lemma SelfSendEffect(s: State, m: nat, spurious: bool)
    requires CallbackReady(s, m) && s.pcs[m].SelfSend?
    ensures CallbackEffect(s, DoSelfSend(s, m), m, spurious)
  {}

  lemma PubLoadEffect(s: State, m: nat, spurious: bool)
    requires CallbackReady(s, m) && s.pcs[m].PubLoad?
    ensures CallbackEffect(s, DoPubLoad(s, m), m, spurious)
  {}

  lemma PubMaxEffect(s: State, m: nat, spurious: bool)
    requires CallbackReady(s, m) && s.pcs[m].PubMax?
    ensures CallbackEffect(s, DoPubMax(s, m), m, spurious)
  {}

  lemma SelfWinsEffect(s: State, m: nat, spurious: bool)
    requires CallbackReady(s, m) && s.pcs[m].SelfCas? && s.slots[MySlot(s, m)].answer == Pending
    ensures CallbackEffect(s, DoSelfCas(s, m), m, spurious)
  {}

  lemma SelfLosesEffect(s: State, m: nat, spurious: bool)
    requires CallbackReady(s, m) && s.pcs[m].SelfCas? && !(s.slots[MySlot(s, m)].answer == Pending)
    ensures CallbackEffect(s, DoSelfCas(s, m), m, spurious)
  {}

  lemma PubRetriesEffect(s: State, m: nat, spurious: bool)
    requires CallbackReady(s, m) && s.pcs[m].PubCas? && s.pcs[m].depth > s.pcs[m].maximum && (spurious || s.depthMax != s.pcs[m].maximum)
    ensures CallbackEffect(s, DoPubCas(s, m, spurious), m, spurious)
  {}

  lemma PubEndsEffect(s: State, m: nat, spurious: bool)
    requires CallbackReady(s, m) && s.pcs[m].PubCas? && !(s.pcs[m].depth > s.pcs[m].maximum && (spurious || s.depthMax != s.pcs[m].maximum))
    ensures CallbackEffect(s, DoPubCas(s, m, spurious), m, spurious)
  {}

  lemma PubStoreEffect(s: State, m: nat, spurious: bool)
    requires CallbackReady(s, m) && s.pcs[m].PubStore?
    ensures CallbackEffect(s, DoPubStore(s, m), m, spurious)
  {}

  lemma NotifyCasEffect(s: State, m: nat, spurious: bool)
    requires CallbackReady(s, m) && s.pcs[m].NotifyCas?
    ensures CallbackEffect(s, DoNotifyCas(s, m), m, spurious)
  {}

  lemma NotifyWriteEffect(s: State, m: nat, spurious: bool)
    requires CallbackReady(s, m) && s.pcs[m].NotifyWrite?
    ensures CallbackEffect(s, DoNotifyWrite(s, m), m, spurious)
  {}

  lemma LeaveEffect(s: State, m: nat, spurious: bool)
    requires CallbackReady(s, m) && s.pcs[m].Leave?
    ensures CallbackEffect(s, DoLeave(s, m), m, spurious)
  {}

  /** Any step of a callback. */
  lemma CallbackStepEffect(s: State, m: nat, spurious: bool)
    requires CallbackReady(s, m) && OwnPositions(s, m)
    ensures CallbackEffect(s, CallbackStep(s, m, spurious), m, spurious)
  {
    hide CallbackEffect, DoCheck, DoRefuse, DoRetain, DoEnqLoad, DoEnqRead, DoEnqCas, DoFull, DoFullCount, DoFullRelease;
    hide DoFill, DoSetAnswer, DoSetOccupied, DoArmLoad, DoArmRead, DoArmCas, DoArmFill, DoArmPublish, DoSelfCas, DoSelfSend;
    hide DoPubLoad, DoPubMax, DoPubCas, DoPubStore, DoNotifyCas, DoNotifyWrite, DoLeave;
    match s.pcs[m]
    case Check => if s.closed { CheckRefusesEffect(s, m, spurious); } else { CheckPassesEffect(s, m, spurious); }
    case Refuse => RefuseEffect(s, m, spurious);
    case Retain => RetainEffect(s, m, spurious);
    case EnqLoad => EnqLoadEffect(s, m, spurious);
    case EnqRead(_) => EnqReadEffect(s, m, spurious);
    case EnqCas(pos) =>
      if pos == s.queue.enq && !spurious { EnqClaimsEffect(s, m, spurious); } else { EnqRetriesEffect(s, m, spurious); }
    case Full => FullEffect(s, m, spurious);
    case FullCount => FullCountEffect(s, m, spurious);
    case FullRelease => FullReleaseEffect(s, m, spurious);
    case Fill => FillEffect(s, m, spurious);
    case SetAnswer => SetAnswerEffect(s, m, spurious);
    case SetOccupied => SetOccupiedEffect(s, m, spurious);
    case ArmLoad => ArmLoadEffect(s, m, spurious);
    case ArmRead(_) => ArmReadEffect(s, m, spurious);
    case ArmCas(at) =>
      if at == s.requests.enq && !spurious { ArmClaimsEffect(s, m, spurious); } else { ArmRetriesEffect(s, m, spurious); }
    case ArmFill(_) => ArmFillEffect(s, m, spurious);
    case ArmPublish(_) => ArmPublishEffect(s, m, spurious);
    case SelfCas =>
      if s.slots[MySlot(s, m)].answer == Pending { SelfWinsEffect(s, m, spurious); } else { SelfLosesEffect(s, m, spurious); }
    case SelfSend => SelfSendEffect(s, m, spurious);
    case PubLoad => PubLoadEffect(s, m, spurious);
    case PubMax(_) => PubMaxEffect(s, m, spurious);
    case PubCas(depth, maximum) =>
      if depth > maximum && (spurious || s.depthMax != maximum) { PubRetriesEffect(s, m, spurious); }
      else { PubEndsEffect(s, m, spurious); }
    case PubStore => PubStoreEffect(s, m, spurious);
    case NotifyCas => NotifyCasEffect(s, m, spurious);
    case NotifyWrite => NotifyWriteEffect(s, m, spurious);
    case Leave => LeaveEffect(s, m, spurious);
  }

  // -------------------------------------------------------------- the watchdog

  /** The watchdog leaves Ruby, the callbacks and the queue alone, raises the flag at
      its compare-and-swap, and owes a byte from there to its write exactly if it was
      the one to raise it.  It gets nearer to the end of what it is doing. */
  predicate WatchdogEffect(s: State, t: State) {
    && LeavesRuby(s, t) && t.pcs == s.pcs && t.queue == s.queue
    && t.notified == (s.notified || s.wd.TimeoutNotify?)
    && (t.wd.TimeoutWrite? <==> s.wd.TimeoutNotify? && !s.notified)
    && t.pipe == s.pipe + (if s.wd.TimeoutWrite? then 1 else 0)
    && WatchdogNears(s, t)
  }

  lemma TopEffect(s: State)
    requires s.wd.Top?
    ensures WatchdogEffect(s, DoTop(s))
  {}

  lemma PopReadEffect(s: State)
    requires Shape(s) && s.wd.PopRead?
    ensures WatchdogEffect(s, DoPopRead(s))
  {}

  lemma PopTakeEffect(s: State)
    requires Shape(s) && s.wd.PopTake?
    ensures WatchdogEffect(s, DoPopTake(s))
  {}

  lemma PopFreeEffect(s: State)
    requires Shape(s) && s.wd.PopFree?
    ensures WatchdogEffect(s, DoPopFree(s))
  {}

  lemma HeapSetEffect(s: State)
    requires s.wd.HeapSet?
    ensures WatchdogEffect(s, DoHeapSet(s))
  {}

  lemma ClockEffect(s: State)
    requires s.wd.Clock?
    ensures WatchdogEffect(s, DoClock(s))
  {}

  lemma ScanTakeEffect(s: State, k: nat)
    requires CanScan(s, k) && s.heap != map[] && s.heap[k].fireAt <= s.wd.now
    ensures WatchdogEffect(s, DoScan(s, k))
  {
    assert DoScan(s, k).heap.Keys == s.heap.Keys - {k};
  }

  lemma ScanEndEffect(s: State, k: nat)
    requires CanScan(s, k) && !(s.heap != map[] && s.heap[k].fireAt <= s.wd.now)
    ensures WatchdogEffect(s, DoScan(s, k))
  {}

  lemma DueEffect(s: State)
    requires s.wd.Due? && WatchdogAt(s, s.wd.entry)
    ensures WatchdogEffect(s, DoDue(s, s.wd.entry))
  {}

  lemma EnterEffect(s: State)
    requires s.wd.Enter? && WatchdogAt(s, s.wd.entry)
    ensures WatchdogEffect(s, DoEnter(s, s.wd.entry))
  {}

  lemma RecheckEffect(s: State)
    requires s.wd.Recheck? && WatchdogAt(s, s.wd.entry)
    ensures WatchdogEffect(s, DoRecheck(s, s.wd.entry))
  {}

  lemma CompareEffect(s: State)
    requires s.wd.Compare? && WatchdogAt(s, s.wd.entry)
    ensures WatchdogEffect(s, DoCompare(s, s.wd.entry))
  {}

  lemma DecideWinsEffect(s: State)
    requires s.wd.Decide? && WatchdogAt(s, s.wd.entry) && s.slots[s.wd.entry.slot].answer == Pending
    ensures WatchdogEffect(s, DoDecide(s, s.wd.entry))
  {}

  lemma DecideLosesEffect(s: State)
    requires s.wd.Decide? && WatchdogAt(s, s.wd.entry) && s.slots[s.wd.entry.slot].answer != Pending
    ensures WatchdogEffect(s, DoDecide(s, s.wd.entry))
  {}

  lemma SendEffect(s: State)
    requires s.wd.Send? && WatchdogAt(s, s.wd.entry)
    ensures WatchdogEffect(s, DoSend(s, s.wd.entry))
  {}

  lemma CountTimeoutEffect(s: State)
    requires s.wd.CountTimeout? && WatchdogAt(s, s.wd.entry)
    ensures WatchdogEffect(s, DoCountTimeout(s, s.wd.entry))
  {}

  lemma TimeoutNotifyEffect(s: State)
    requires s.wd.TimeoutNotify? && WatchdogAt(s, s.wd.entry)
    ensures WatchdogEffect(s, DoTimeoutNotify(s, s.wd.entry))
  {}

  lemma TimeoutWriteEffect(s: State)
    requires s.wd.TimeoutWrite? && WatchdogAt(s, s.wd.entry)
    ensures WatchdogEffect(s, DoTimeoutWrite(s, s.wd.entry))
  {}

  lemma UnreadEffect(s: State)
    requires s.wd.Unread? && WatchdogAt(s, s.wd.entry)
    ensures WatchdogEffect(s, DoUnread(s, s.wd.entry))
  {}

  lemma SleepEffect(s: State)
    requires s.wd.Sleep?
    ensures WatchdogEffect(s, Wd(s, Top))
  {}

  lemma ExitEffect(s: State)
    requires s.wd.Exit?
    ensures WatchdogEffect(s, DoExit(s))
  {}

  lemma AwaitDeleteEffect(s: State)
    requires s.wd.AwaitDelete?
    ensures WatchdogEffect(s, DoAwaitDelete(s))
  {}

  lemma DeleteEffect(s: State)
    requires s.wd.Delete?
    ensures WatchdogEffect(s, Wd(s, Gone))
  {}

  /** Any step of the watchdog. */
  lemma WatchdogStepEffect(s: State, k: nat)
    requires WatchdogReady(s, k)
    ensures WatchdogEffect(s, WatchdogStep(s, k))
  {
    hide WatchdogEffect, DoTop, DoPopRead, DoPopTake, DoPopFree, DoHeapSet, DoClock, DoScan, DoDue, DoEnter, DoRecheck;
    hide DoCompare, DoDecide, DoSend, DoCountTimeout, DoTimeoutNotify, DoTimeoutWrite, DoUnread, DoExit, DoAwaitDelete, Wd;
    match s.wd
    case Top => TopEffect(s);
    case PopRead => PopReadEffect(s);
    case PopTake => PopTakeEffect(s);
    case PopFree(_) => PopFreeEffect(s);
    case HeapSet(_) => HeapSetEffect(s);
    case Clock => ClockEffect(s);
    case Scan(now) => if s.heap != map[] && s.heap[k].fireAt <= now { ScanTakeEffect(s, k); } else { ScanEndEffect(s, k); }
    case Due(_) => DueEffect(s);
    case Enter(_) => EnterEffect(s);
    case Recheck(_) => RecheckEffect(s);
    case Compare(_) => CompareEffect(s);
    case Decide(e) => if s.slots[e.slot].answer == Pending { DecideWinsEffect(s); } else { DecideLosesEffect(s); }
    case Send(_) => SendEffect(s);
    case CountTimeout(_) => CountTimeoutEffect(s);
    case TimeoutNotify(_) => TimeoutNotifyEffect(s);
    case TimeoutWrite(_) => TimeoutWriteEffect(s);
    case Unread(_) => UnreadEffect(s);
    case Sleep => SleepEffect(s);
    case Exit => ExitEffect(s);
    case AwaitDelete => AwaitDeleteEffect(s);
    case Delete => DeleteEffect(s);
  }

  // -------------------------------------------------------------- Ruby

  /** Ruby is releasing wrapper w. */
  predicate Releasing(pc: RubyPc, w: nat) {
    (HasJob(pc) && pc.job.Release? && pc.job.w == w) || Invalidates(pc, w)
  }

  /** The maximum of the drain whose array Ruby has yet to make. */
  function Maximum(pc: RubyPc): int
    requires Wakeup.Making(pc)
  {
    if pc.DrainEmpty? then pc.maximum else Outer(pc).maximum
  }

  /** A step inside a call begins no other drain and no other release, touches no
      wrapper but the one it invalidates and a new one, and raises only where an
      array is made, out of memory or for a maximum that is no size. */
  ghost predicate Faithful(s: State, t: State, fails: bool) {
    && (Wakeup.Making(t.ruby) ==> Wakeup.Making(s.ruby) && Maximum(t.ruby) == Maximum(s.ruby))
    && (t.broken && !s.broken ==> s.ruby.MakeArray? && (fails || !IsArraySize(s.ruby.maximum)))
    && (forall w: nat :: Releasing(t.ruby, w) ==> Releasing(s.ruby, w))
    && (forall w: nat :: w in s.wrappers && !Invalidates(s.ruby, w) ==>
          w in t.wrappers && t.wrappers[w] == s.wrappers[w])
  }

  /** Ruby leaves callbacks and watchdog alone, raises the flag where it notifies and
      owes a byte exactly if it was the one to raise it; only a drain that gets
      through clears the flag.  A close closes the client for good.  Unless a
      compare-and-swap or an allocation fails, or Ruby spins, it gets nearer to the
      end of its call. */
  ghost predicate RubyEffect(s: State, t: State, fails: bool) {
    && Faithful(s, t, fails)
    && t.pcs == s.pcs && t.wd == s.wd && t.auth == s.auth
    && (s.closed || s.ruby.CloseSwap? ==> t.closed)
    && t.notified == (if s.ruby.Clear? then false else s.notified || s.ruby.RubyNotify?)
    && (t.ruby.RubyWrite? <==> s.ruby.RubyNotify? && !s.notified)
    && (if s.ruby.DrainEmpty? then t.pipe <= s.pipe else t.pipe == s.pipe + (if s.ruby.RubyWrite? then 1 else 0))
    && (Wakeup.Emptied(t.ruby) && !Wakeup.Emptied(s.ruby) ==> s.ruby.MakeArray? && IsArraySize(s.ruby.maximum))
    && (fails || RubyNears(s, t))
  }

  lemma DrainEmptyEffect(s: State, fails: bool)
    requires s.ruby.DrainEmpty?
    ensures RubyEffect(s, DoDrainEmpty(s), fails)
  {}

  lemma MakeArrayEffect(s: State, fails: bool)
    requires s.ruby.MakeArray?
    ensures RubyEffect(s, DoMakeArray(s, fails), fails)
  {}

  lemma DeqLoadEffect(s: State, fails: bool)
    requires s.ruby.DeqLoad?
    ensures RubyEffect(s, DoDeqLoad(s), fails)
  {}

  lemma DeqReadEffect(s: State, fails: bool)
    requires Shape(s) && s.ruby.DeqRead?
    requires s.ruby.pos == s.queue.deq ==> s.queue.cells[At(s.ruby.pos, Cap(s))].sequence <= s.ruby.pos + 1
    ensures RubyEffect(s, DoDeqRead(s), fails)
  {}

  lemma DeqTakesEffect(s: State, fails: bool)
    requires Shape(s) && s.ruby.DeqCas? && s.ruby.pos == s.queue.deq
    ensures RubyEffect(s, DoDeqCas(s, false), fails)
  {}

  lemma DeqRetriesEffect(s: State, fails: bool)
    requires Shape(s) && s.ruby.DeqCas? && (fails || s.ruby.pos != s.queue.deq)
    ensures RubyEffect(s, DoDeqCas(s, fails), fails)
  {}

  lemma WrapEffect(s: State, fails: bool)
    requires RubyReady(s) && s.ruby.Wrap? && s.slots[s.ruby.slot].position !in s.wrappers
    ensures RubyEffect(s, DoWrap(s), fails)
  {}

  lemma CountDeliveredEffect(s: State, fails: bool)
    requires s.ruby.CountDelivered?
    ensures RubyEffect(s, DoCountDelivered(s), fails)
  {}

  lemma ClearEffect(s: State, fails: bool)
    requires s.ruby.Clear?
    ensures RubyEffect(s, DoClear(s), fails)
  {}

  lemma DepthEnqEffect(s: State, fails: bool)
    requires s.ruby.DepthEnq?
    ensures RubyEffect(s, DoDepthEnq(s), fails)
  {}

  lemma DepthDeqEffect(s: State, fails: bool)
    requires s.ruby.DepthDeq?
    ensures RubyEffect(s, DoDepthDeq(s), fails)
  {}

  lemma RubyNotifyNears(s: State)
    requires s.ruby.RubyNotify?
    ensures RubyNears(s, DoRubyNotify(s))
  {}

  lemma RubyNotifyEffect(s: State, fails: bool)
    requires s.ruby.RubyNotify?
    ensures RubyEffect(s, DoRubyNotify(s), fails)
  {
    hide RubyNears;
    RubyNotifyNears(s);
  }

  lemma RubyWriteEffect(s: State, fails: bool)
    requires s.ruby.RubyWrite?
    ensures RubyEffect(s, DoRubyWrite(s), fails)
  {}

  lemma RespondCheckEffect(s: State, fails: bool)
    requires Handshake.JobOk(s.ruby) && s.ruby.RespondCheck?
    ensures RubyEffect(s, DoRespondCheck(s), fails)
  {}

  lemma AnswerWinsEffect(s: State, fails: bool)
    requires RubyReady(s) && s.ruby.AnswerCas? && s.slots[s.ruby.slot].answer == Pending
    ensures RubyEffect(s, DoAnswerCas(s), fails)
  {}

  lemma AnswerLosesEffect(s: State, fails: bool)
    requires RubyReady(s) && s.ruby.AnswerCas? && s.slots[s.ruby.slot].answer != Pending
    ensures RubyEffect(s, DoAnswerCas(s), fails)
  {}

  lemma AnswerSendNears(s: State)
    requires RubyReady(s) && Handshake.JobOk(s.ruby) && s.ruby.AnswerSend?
    ensures RubyNears(s, DoAnswerSend(s))
  {}

  lemma AnswerSendEffect(s: State, fails: bool)
    requires RubyReady(s) && Handshake.JobOk(s.ruby) && s.ruby.AnswerSend?
    ensures RubyEffect(s, DoAnswerSend(s), fails)
  {
    hide RubyNears;
    AnswerSendNears(s);
  }

  lemma DisarmStoreEffect(s: State, fails: bool)
    requires RubyReady(s) && Handshake.JobOk(s.ruby) && s.ruby.DisarmStore?
    ensures RubyEffect(s, DoDisarmStore(s), fails)
  {}

  lemma DisarmSpinEffect(s: State, fails: bool)
    requires RubyReady(s) && Handshake.JobOk(s.ruby) && s.ruby.DisarmSpin?
    ensures RubyEffect(s, DoDisarmSpin(s), fails)
  {}

  lemma ReleaseMessageEffect(s: State, fails: bool)
    requires RubyReady(s) && Handshake.JobOk(s.ruby) && s.ruby.ReleaseMessage?
    ensures RubyEffect(s, DoReleaseMessage(s), fails)
  {}

  lemma StoreSequenceNears(s: State)
    requires RubyReady(s) && Handshake.JobOk(s.ruby) && s.ruby.StoreSequence?
    ensures RubyNears(s, DoStoreSequence(s))
  {}

  lemma StoreSequenceEffect(s: State, fails: bool)
    requires RubyReady(s) && Handshake.JobOk(s.ruby) && s.ruby.StoreSequence?
    ensures RubyEffect(s, DoStoreSequence(s), fails)
  {
    hide RubyNears;
    StoreSequenceNears(s);
  }

  lemma InvalidateNears(s: State)
    requires RubyReady(s) && Handshake.JobOk(s.ruby) && s.ruby.Invalidate?
    ensures RubyNears(s, DoInvalidate(s))
  {}

  lemma InvalidateEffect(s: State, fails: bool)
    requires RubyReady(s) && Handshake.JobOk(s.ruby) && s.ruby.Invalidate?
    ensures RubyEffect(s, DoInvalidate(s), fails)
  {
    hide RubyNears;
    InvalidateNears(s);
  }

  lemma CloseSwapEffect(s: State, fails: bool)
    requires s.ruby.CloseSwap?
    ensures RubyEffect(s, DoCloseSwap(s), fails)
  {}

  lemma CloseSpinEffect(s: State, fails: bool)
    requires s.ruby.CloseSpin?
    ensures RubyEffect(s, DoCloseSpin(s), fails)
  {}

  lemma CloseStopEffect(s: State, fails: bool)
    requires s.ruby.CloseStop?
    ensures RubyEffect(s, DoCloseStop(s), fails)
  {}

  lemma CloseAwaitEffect(s: State, fails: bool)
    requires s.ruby.CloseAwait?
    ensures RubyEffect(s, DoCloseAwait(s), fails)
  {}

  lemma SweepReadEffect(s: State, fails: bool)
    requires RubyReady(s) && s.ruby.SweepRead?
    ensures RubyEffect(s, DoSweepRead(s), fails)
  {}

  lemma DeleteReadyEffect(s: State, fails: bool)
    requires s.ruby.DeleteReady?
    ensures RubyEffect(s, DoDeleteReady(s), fails)
  {}

  lemma JoinNears(s: State)
    requires s.ruby.Join?
    ensures RubyNears(s, DoJoin(s))
  {}

  lemma JoinEffect(s: State, fails: bool)
    requires s.ruby.Join?
    ensures RubyEffect(s, DoJoin(s), fails)
  {
    hide RubyNears;
    JoinNears(s);
  }

  /** What Ruby knows at its next step. */
  predicate Knows(s: State)
    requires RubyReady(s)
  {
    && Handshake.JobOk(s.ruby)
    && (s.ruby.DeqRead? && s.ruby.pos == s.queue.deq ==>
          s.queue.cells[At(s.ruby.pos, Cap(s))].sequence <= s.ruby.pos + 1)
    && (s.ruby.Wrap? ==> s.slots[s.ruby.slot].position !in s.wrappers)
  }

  /** Any step of Ruby inside a call. */
  lemma RubyStepEffect(s: State, fails: bool)
    requires RubyReady(s) && Knows(s)
    ensures RubyEffect(s, RubyStep(s, fails), fails)
  {
    hide RubyEffect, DoDrainEmpty, DoMakeArray, DoDeqLoad, DoDeqRead, DoDeqCas, DoWrap, DoCountDelivered, DoClear;
    hide DoDepthEnq, DoDepthDeq, DoRubyNotify, DoRubyWrite, DoCloseSwap, DoCloseSpin, DoCloseStop, DoCloseAwait;
    hide DoSweepRead, DoDeleteReady, DoJoin, DoRespondCheck, DoAnswerCas, DoAnswerSend, DoDisarmStore, DoDisarmSpin;
    hide DoReleaseMessage, DoStoreSequence, DoInvalidate;
    match s.ruby
    case DrainEmpty(_) => DrainEmptyEffect(s, fails);
    case MakeArray(_) => MakeArrayEffect(s, fails);
    case DeqLoad(_) => DeqLoadEffect(s, fails);
    case DeqRead(_, _) => DeqReadEffect(s, fails);
    case DeqCas(_, pos) => if pos == s.queue.deq && !fails { DeqTakesEffect(s, fails); } else { DeqRetriesEffect(s, fails); }
    case Wrap(_, _) => WrapEffect(s, fails);
    case CountDelivered(_) => CountDeliveredEffect(s, fails);
    case Clear => ClearEffect(s, fails);
    case DepthEnq => DepthEnqEffect(s, fails);
    case DepthDeq(_) => DepthDeqEffect(s, fails);
    case RubyNotify(_) => RubyNotifyEffect(s, fails);
    case RubyWrite => RubyWriteEffect(s, fails);
    case RespondCheck(_, _) => RespondCheckEffect(s, fails);
    case AnswerCas(i, _) => if s.slots[i].answer == Pending { AnswerWinsEffect(s, fails); } else { AnswerLosesEffect(s, fails); }
    case AnswerSend(_, _) => AnswerSendEffect(s, fails);
    case DisarmStore(_, _, _) => DisarmStoreEffect(s, fails);
    case DisarmSpin(_, _, _) => DisarmSpinEffect(s, fails);
    case ReleaseMessage(_, _) => ReleaseMessageEffect(s, fails);
    case StoreSequence(_, _) => StoreSequenceEffect(s, fails);
    case Invalidate(_, _) => InvalidateEffect(s, fails);
    case CloseSwap => CloseSwapEffect(s, fails);
    case CloseSpin => CloseSpinEffect(s, fails);
    case CloseStop => CloseStopEffect(s, fails);
    case CloseAwait => CloseAwaitEffect(s, fails);
    case SweepRead(_) => SweepReadEffect(s, fails);
    case DeleteReady => DeleteReadyEffect(s, fails);
    case Join => JoinEffect(s, fails);
  }
}
