/** Every step of the Ruby actor keeps the invariant.

    The steps come in the order of the operations they belong to: moves that hold
    no slot (draining, notifying, closing), work on one slot (answering, disarming,
    releasing, returning it), taking a slot out of the ring, wrappers, and the
    beginning of a call.

    A move that changes only Ruby's point goes through `StrollKeeps`, `WalkKeeps`
    or `JobMoveKeeps`, according to whether Ruby has a slot in its hand.  The others
    have `...Base` and `...Core` lemmas below them, as in CallbackSteps.  The step
    that matters most is `DisarmSpinKeeps`: once the reader count has been seen at
    zero, the watchdog cannot become a reader of this message any more. */
module RubySteps {
  import opened Rings
  import opened Words
  import opened Protocol
  import opened Structure
  import Handshake
  import Tokens
  import Lifecycle
  import Ownership
  import Arming
  import Wakeup
  import Counters
  import opened Steps

  // -------------------------------------------------------------- moves

  /** Ruby moves without touching slots, ring or wrappers. */
  predicate Moves(s: State, t: State) {
    && Shape(s)
    && t == s.(ruby := t.ruby, closed := t.closed, running := t.running, deleteReady := t.deleteReady,
               finished := t.finished, broken := t.broken, notified := t.notified, pipe := t.pipe,
               delivered := t.delivered)
    && !s.ruby.Invalidate? && !t.ruby.Invalidate? && !s.ruby.AnswerSend? && !t.ruby.AnswerSend?
  }

  /** Neither point works on a slot or holds one. */
  predicate FreeHanded(pc: RubyPc) {
    !UsesSlot(pc) && !pc.RespondCheck? && !pc.Invalidate?
  }

  lemma MoveKeepsCore(s: State, t: State)
    requires Core(s) && Moves(s, t)
    requires forall i :: 0 <= i < Cap(s) ==> Handshake.Disarmed(t.ruby, i) == Handshake.Disarmed(s.ruby, i)
    requires forall i :: 0 <= i < Cap(s) ==> Handshake.InHand(t.ruby, i) == Handshake.InHand(s.ruby, i)
    requires Handshake.RubyOk(t) && Handshake.Watch(t)
    requires Lifecycle.Flags(t) && (Lifecycle.Rank(t) >= 2 ==> Lifecycle.Quiet(t)) && Lifecycle.Swept(t)
    ensures Core(t)
  {
    UntouchedKeeps(s, t);
    Handshake.RubyMoveKeeps(s, t);
    Tokens.FrameKeeps(s, t);
    Lifecycle.RubyKeeps(s, t);
  }

  lemma MoveKeepsRest(s: State, t: State)
    requires Core(s) && Core(t) && Rest(s) && Moves(s, t)
    requires forall i :: 0 <= i < Cap(s) ==> Ownership.Released(t.ruby, i) == Ownership.Released(s.ruby, i)
    requires Wakeup.Inv(t) && Counters.Totals(t)
    ensures Rest(t)
  {
    Ownership.FrameKeeps(s, t);
    Arming.UntouchedKeeps(s, t);
    Counters.OtherKeeps(s, t);
  }

  /** A move between points that hold no slot. */
  lemma StrollKeeps(s: State, t: State)
    requires Good(s) && Moves(s, t) && FreeHanded(s.ruby) && FreeHanded(t.ruby)
    requires (t.ruby.DeqRead? || t.ruby.DeqCas? ==> t.ruby.pos <= s.queue.deq)
    requires (t.ruby.DeqCas? && t.ruby.pos == s.queue.deq ==> Takeable(s.queue))
    requires Lifecycle.Flags(t) && (Lifecycle.Rank(t) >= 2 ==> Lifecycle.Quiet(t)) && Lifecycle.Swept(t)
    requires Wakeup.Inv(t) && Counters.Totals(t)
    ensures Good(t)
  {
    hide Claims, Pcs, Build, Handshake.Slots, Tokens.Inv, Ownership.Inv, Arming.Requests, Arming.Holds, Wakeup.Inv;
    MoveKeepsCore(s, t);
    MoveKeepsRest(s, t);
  }

  /** A move that neither drains, notifies nor writes. */
  lemma WalkKeeps(s: State, t: State)
    requires Good(s) && Moves(s, t) && FreeHanded(s.ruby) && FreeHanded(t.ruby)
    requires t.notified == s.notified && t.pipe == s.pipe && t.delivered == s.delivered && t.broken == s.broken
    requires (t.ruby.DeqRead? || t.ruby.DeqCas? ==> t.ruby.pos <= s.queue.deq)
    requires (t.ruby.DeqCas? && t.ruby.pos == s.queue.deq ==> Takeable(s.queue))
    requires Lifecycle.Flags(t) && (Lifecycle.Rank(t) >= 2 ==> Lifecycle.Quiet(t)) && Lifecycle.Swept(t)
    requires Wakeup.SameDrain(s.ruby, t.ruby) && !s.ruby.RubyWrite? && !t.ruby.RubyWrite?
    requires !s.ruby.DepthEnq? && !s.ruby.DepthDeq? && !s.ruby.RubyNotify? && !t.ruby.DepthDeq?
    requires Counters.InHand(t.ruby) == Counters.InHand(s.ruby)
    ensures Good(t)
  {
    hide Rings.Inv, Claims, Pcs, Build, Handshake.Slots, Handshake.Watch, Handshake.Hand;
    hide Tokens.Inv, Ownership.Inv, Arming.Requests, Arming.Holds, Wakeup.Inv, Lifecycle.Inv;
    Wakeup.FrameKeeps(s, t);
    StrollKeeps(s, t);
  }

  // -------------------------------------------------------------- draining

  /** The pipe is being emptied. */
  lemma EmptyingKeeps(s: State)
    requires Good(s) && s.ruby.DrainEmpty?
    ensures Good(DoDrainEmpty(s))
  {
    Wakeup.EmptyingKeeps(s, DoDrainEmpty(s));
    hide Claims, Pcs, Build, Handshake.Slots, Tokens.Inv, Ownership.Inv, Arming.Requests, Arming.Holds, Wakeup.Inv;
    StrollKeeps(s, DoDrainEmpty(s));
  }

  /** The drain raises, with the pipe emptied and the flag as it was. */
  lemma RaisingKeeps(s: State, fails: bool)
    requires Good(s) && s.ruby.MakeArray? && (fails || !IsArraySize(s.ruby.maximum))
    ensures Good(DoMakeArray(s, fails))
  {
    Wakeup.EmptyingKeeps(s, DoMakeArray(s, fails));
    hide Claims, Pcs, Build, Handshake.Slots, Tokens.Inv, Ownership.Inv, Arming.Requests, Arming.Holds, Wakeup.Inv;
    StrollKeeps(s, DoMakeArray(s, fails));
  }

  lemma DrainGoesOn(s: State)
    requires Good(s) && s.ruby.MakeArray? && IsArraySize(s.ruby.maximum)
    ensures Good(DoMakeArray(s, false))
  {
    Wakeup.DrainKeeps(s, DoMakeArray(s, false));
    hide Claims, Pcs, Build, Handshake.Slots, Tokens.Inv, Ownership.Inv, Arming.Requests, Arming.Holds, Wakeup.Inv;
    StrollKeeps(s, DoMakeArray(s, false));
  }

  lemma DeqLoadKeeps(s: State)
    requires Good(s) && s.ruby.DeqLoad?
    ensures Good(DoDeqLoad(s))
  {
    hide Claims, Pcs, Build, Handshake.Slots, Tokens.Inv, Ownership.Inv, Arming.Requests, Arming.Holds, Wakeup.Inv;
    var t := DoDeqLoad(s);
    WalkKeeps(s, t);
  }

  lemma DeqSeesPublished(s: State)
    requires Good(s) && s.ruby.DeqRead? && s.queue.cells[At(s.ruby.pos, Cap(s))].sequence == s.ruby.pos + 1
    ensures Good(DoDeqRead(s))
  {
    hide Claims, Pcs, Build, Handshake.Slots, Tokens.Inv, Ownership.Inv, Arming.Requests, Arming.Holds, Wakeup.Inv;
    var t := DoDeqRead(s);
    WalkKeeps(s, t);
  }

  lemma DeqSeesStale(s: State)
    requires Good(s) && s.ruby.DeqRead? && s.queue.cells[At(s.ruby.pos, Cap(s))].sequence > s.ruby.pos + 1
    ensures Good(DoDeqRead(s))
  {
    hide Claims, Pcs, Build, Handshake.Slots, Tokens.Inv, Ownership.Inv, Arming.Requests, Arming.Holds, Wakeup.Inv;
    var t := DoDeqRead(s);
    WalkKeeps(s, t);
  }

  lemma DrainSeesEmpty(s: State)
    requires Good(s) && s.ruby.DeqRead? && s.ruby.mode.Draining?
    requires s.queue.cells[At(s.ruby.pos, Cap(s))].sequence < s.ruby.pos + 1
    ensures Good(DoDeqRead(s))
  {
    hide Claims, Pcs, Build, Handshake.Slots, Tokens.Inv, Ownership.Inv, Arming.Requests, Arming.Holds, Wakeup.Inv;
    var t := DoDeqRead(s);
    WalkKeeps(s, t);
  }

  /** The closer finds the ring empty: with the callbacks gone, it is. */
  lemma CloseSeesEmpty(s: State)
    requires Good(s) && s.ruby.DeqRead? && s.ruby.mode.Closing?
    requires s.queue.cells[At(s.ruby.pos, Cap(s))].sequence < s.ruby.pos + 1
    ensures Good(DoDeqRead(s))
  {
    var t := DoDeqRead(s);
    Lifecycle.EmptyReadIsEmpty(s, s.ruby.pos);
    WalkKeeps(s, t);
  }

  lemma DeqRetryKeeps(s: State, spurious: bool)
    requires Good(s) && s.ruby.DeqCas? && (spurious || s.ruby.pos != s.queue.deq)
    ensures Good(DoDeqCas(s, spurious))
  {
    hide Claims, Pcs, Build, Handshake.Slots, Tokens.Inv, Ownership.Inv, Arming.Requests, Arming.Holds, Wakeup.Inv;
    var t := DoDeqCas(s, spurious);
    WalkKeeps(s, t);
  }

  lemma CountDeliveredKeeps(s: State)
    requires Good(s) && s.ruby.CountDelivered?
    ensures Good(DoCountDelivered(s))
  {
    var t := DoCountDelivered(s);
    Wakeup.DrainKeeps(s, t);
    StrollKeeps(s, t);
  }

  lemma ClearKeeps(s: State)
    requires Good(s) && s.ruby.Clear?
    ensures Good(DoClear(s))
  {
    var t := DoClear(s);
    Wakeup.DrainKeeps(s, t);
    StrollKeeps(s, t);
  }

  lemma DepthEnqKeeps(s: State)
    requires Good(s) && s.ruby.DepthEnq?
    ensures Good(DoDepthEnq(s))
  {
    Wakeup.DepthKeeps(s);
    StrollKeeps(s, DoDepthEnq(s));
  }

  lemma DepthDeqKeeps(s: State)
    requires Good(s) && s.ruby.DepthDeq?
    ensures Good(DoDepthDeq(s))
  {
    Wakeup.DepthKeeps(s);
    StrollKeeps(s, DoDepthDeq(s));
  }

  lemma NotifyKeepsWakeup(s: State)
    requires Wakeup.Inv(s) && s.ruby.RubyNotify?
    ensures Wakeup.Inv(DoRubyNotify(s))
  {
    var t := DoRubyNotify(s);
    assert Wakeup.CallbackWrites(t) == Wakeup.CallbackWrites(s);
    Wakeup.RaisedKeeps(s, t);
  }

  lemma NotifyKeeps(s: State)
    requires Good(s) && s.ruby.RubyNotify?
    ensures Good(DoRubyNotify(s))
  {
    NotifyKeepsWakeup(s);
    hide Claims, Pcs, Build, Handshake.Slots, Tokens.Inv, Ownership.Inv, Arming.Requests, Arming.Holds, Wakeup.Inv;
    StrollKeeps(s, DoRubyNotify(s));
  }

  lemma WriteKeeps(s: State)
    requires Good(s) && s.ruby.RubyWrite?
    ensures Good(DoRubyWrite(s))
  {
    hide Claims, Pcs, Build, Handshake.Slots, Tokens.Inv, Ownership.Inv, Arming.Requests, Arming.Holds, Wakeup.Inv;
    var t := DoRubyWrite(s);
    Wakeup.WriteKeeps(s, t);
    StrollKeeps(s, t);
  }

  // -------------------------------------------------------------- closing

  lemma CloseSwapKeeps(s: State)
    requires Good(s) && s.ruby.CloseSwap?
    ensures Good(DoCloseSwap(s))
  {
    hide Claims, Pcs, Build, Handshake.Slots, Tokens.Inv, Ownership.Inv, Arming.Requests, Arming.Holds, Wakeup.Inv;
    var t := DoCloseSwap(s);
    WalkKeeps(s, t);
  }

  /** The spin ends when no callback is active; none can start accepting again. */
  lemma CloseSpinKeeps(s: State)
    requires Good(s) && s.ruby.CloseSpin?
    ensures Good(DoCloseSpin(s))
  {
    hide Claims, Pcs, Build, Handshake.Slots, Tokens.Inv, Ownership.Inv, Arming.Requests, Arming.Holds, Wakeup.Inv;
    var t := DoCloseSpin(s);
    if s.active == 0 { Lifecycle.SpinQuiets(s); }
    WalkKeeps(s, t);
  }

  lemma CloseStopKeeps(s: State)
    requires Good(s) && s.ruby.CloseStop?
    ensures Good(DoCloseStop(s))
  {
    hide Claims, Pcs, Build, Handshake.Slots, Tokens.Inv, Ownership.Inv, Arming.Requests, Arming.Holds, Wakeup.Inv;
    var t := DoCloseStop(s);
    WalkKeeps(s, t);
  }

  lemma CloseAwaitKeeps(s: State)
    requires Good(s) && s.ruby.CloseAwait?
    ensures Good(DoCloseAwait(s))
  {
    hide Claims, Pcs, Build, Handshake.Slots, Tokens.Inv, Ownership.Inv, Arming.Requests, Arming.Holds, Wakeup.Inv;
    var t := DoCloseAwait(s);
    WalkKeeps(s, t);
  }

  lemma SweepEndKeeps(s: State)
    requires Good(s) && s.ruby.SweepRead? && s.ruby.slot >= Cap(s)
    ensures Good(DoSweepRead(s))
  {
    hide Claims, Pcs, Build, Handshake.Slots, Tokens.Inv, Ownership.Inv, Arming.Requests, Arming.Holds, Wakeup.Inv;
    var t := DoSweepRead(s);
    WalkKeeps(s, t);
  }

  lemma SkippedIsSettled(s: State)
    requires Good(s) && s.ruby.SweepRead? && s.ruby.slot < Cap(s) && !s.slots[s.ruby.slot].occupied
    ensures s.slots[s.ruby.slot].answer != Pending
  {
    Lifecycle.UnoccupiedIsSettled(s, s.ruby.slot);
  }

  lemma SweepSkipRanks(s: State)
    requires Shape(s) && Lifecycle.Inv(s) && s.ruby.SweepRead? && s.ruby.slot < Cap(s) && !s.slots[s.ruby.slot].occupied
    ensures Lifecycle.Rank(s) == 4 == Lifecycle.Rank(DoSweepRead(s))
    ensures Lifecycle.SweptBelow(s) == s.ruby.slot && Lifecycle.SweptBelow(DoSweepRead(s)) == s.ruby.slot + 1
    ensures Lifecycle.Flags(DoSweepRead(s))
  {}

  lemma SweepSkipLife(s: State)
    requires Good(s) && s.ruby.SweepRead? && s.ruby.slot < Cap(s) && !s.slots[s.ruby.slot].occupied
    ensures var t := DoSweepRead(s);
      Lifecycle.Flags(t) && (Lifecycle.Rank(t) >= 2 ==> Lifecycle.Quiet(t)) && Lifecycle.Swept(t)
  {
    hide Good, Lifecycle.Flags, Lifecycle.Rank, Lifecycle.SweptBelow, Lifecycle.Active, Handshake.RubyOk, Handshake.Watch;
    GoodLife(s);
    SweepSkipRanks(s);
    SkippedIsSettled(s);
  }

  lemma SweepSkipKeeps(s: State)
    requires Good(s) && s.ruby.SweepRead? && s.ruby.slot < Cap(s) && !s.slots[s.ruby.slot].occupied
    ensures Good(DoSweepRead(s))
  {
    hide Good, Lifecycle.Flags, Lifecycle.Quiet, Lifecycle.Swept, Lifecycle.Active, Handshake.RubyOk, Handshake.Watch;
    GoodLife(s);
    SweepSkipLife(s);
    WalkKeeps(s, DoSweepRead(s));
  }

  lemma DeleteReadyKeeps(s: State)
    requires Good(s) && s.ruby.DeleteReady?
    ensures Good(DoDeleteReady(s))
  {
    hide Claims, Pcs, Build, Handshake.Slots, Tokens.Inv, Ownership.Inv, Arming.Requests, Arming.Holds, Wakeup.Inv;
    var t := DoDeleteReady(s);
    WalkKeeps(s, t);
  }

  lemma JoinKeeps(s: State)
    requires Good(s) && s.ruby.Join?
    ensures Good(DoJoin(s))
  {
    hide Claims, Pcs, Build, Handshake.Slots, Tokens.Inv, Ownership.Inv, Arming.Requests, Arming.Holds, Wakeup.Inv;
    var t := DoJoin(s);
    WalkKeeps(s, t);
  }

  // -------------------------------------------------------------- working on a slot

  /** The two points hold the same slots, in the same way, and stand at the same
      place in a drain. */
  ghost predicate SameGrip(a: RubyPc, b: RubyPc) {
    && (forall i: nat :: Handshake.Disarmed(a, i) == Handshake.Disarmed(b, i))
    && (forall i: nat :: Handshake.InHand(a, i) == Handshake.InHand(b, i))
    && (forall i: nat :: Ownership.Released(a, i) == Ownership.Released(b, i))
    && Wakeup.SameDrain(a, b) && Counters.InHand(a) == Counters.InHand(b)
    && !a.RubyWrite? && !b.RubyWrite? && !a.DepthEnq? && !a.DepthDeq? && !b.DepthDeq? && !a.RubyNotify?
  }

  lemma AfterAnswerGrip(pc: RubyPc)
    requires (pc.RespondCheck? || pc.AnswerCas?) && Handshake.JobOk(pc)
    ensures SameGrip(pc, AfterAnswer(pc.slot, pc.job))
  {}

  lemma BeginGrip(pc: RubyPc, i: nat, job: Job)
    requires (pc == Idle && job.Respond?) || ((pc == Idle || pc.MakeArray? || pc.Wrap?) && job.Release? && job.back == pc)
    ensures SameGrip(pc, RespondCheck(i, job))
  {}

  lemma GoodLife(s: State)
    requires Good(s)
    ensures Shape(s) && Lifecycle.Inv(s) && Handshake.RubyOk(s) && Handshake.Watch(s)
  {}

  /** A move of Ruby with a slot in its hand or in view. */
  lemma JobMoveKeeps(s: State, t: State)
    requires Good(s) && Shape(s) && t == s.(ruby := t.ruby) && SameGrip(s.ruby, t.ruby)
    requires !s.ruby.Invalidate? && !t.ruby.Invalidate? && !s.ruby.AnswerSend? && !t.ruby.AnswerSend?
    requires Handshake.RubyOk(t) && Handshake.Watch(t)
    requires Lifecycle.Flags(t) && (Lifecycle.Rank(t) >= 2 ==> Lifecycle.Quiet(t)) && Lifecycle.Swept(t)
    ensures Good(t)
  {
    hide Rings.Inv, Claims, Pcs, Build, Handshake.Slots, Handshake.Watch, Handshake.Hand;
    hide Tokens.Inv, Ownership.Inv, Arming.Requests, Arming.Holds, Wakeup.Inv, Lifecycle.Inv;
    Wakeup.FrameKeeps(s, t);
    MoveKeepsCore(s, t);
    MoveKeepsRest(s, t);
  }

  lemma RespondOpenKeeps(s: State)
    requires Good(s) && s.ruby.RespondCheck? && !s.closed
    ensures Good(DoRespondCheck(s))
  {
    hide Claims, Pcs, Build, Handshake.Slots, Tokens.Inv, Ownership.Inv, Arming.Requests, Arming.Holds, Wakeup.Inv;
    JobMoveKeeps(s, DoRespondCheck(s));
  }

  /** A closed client has answered every slot already. */
  lemma RespondClosedKeeps(s: State)
    requires Good(s) && s.ruby.RespondCheck? && s.closed
    ensures Good(DoRespondCheck(s))
  {
    hide Claims, Pcs, Build, Handshake.Slots, Tokens.Inv, Ownership.Inv, Arming.Requests, Arming.Holds, Wakeup.Inv, SameGrip;
    AfterAnswerGrip(s.ruby);
    JobMoveKeeps(s, DoRespondCheck(s));
  }

  lemma AnswerLostIs(s: State)
    requires Shape(s) && s.ruby.AnswerCas? && s.ruby.slot < Cap(s) && s.slots[s.ruby.slot].answer != Pending
    ensures DoAnswerCas(s) == Rb(s, AfterAnswer(s.ruby.slot, s.ruby.job))
  {}

  lemma AnswerLostLife(s: State)
    requires Shape(s) && Lifecycle.Inv(s) && Handshake.RubyOk(s) && s.ruby.AnswerCas?
    requires s.slots[s.ruby.slot].answer != Pending
    ensures var t := Rb(s, AfterAnswer(s.ruby.slot, s.ruby.job));
      Lifecycle.Flags(t) && (Lifecycle.Rank(t) >= 2 ==> Lifecycle.Quiet(t)) && Lifecycle.Swept(t)
  {
    hide Lifecycle.Active;
  }

  lemma AnswerLostKeeps(s: State)
    requires Good(s) && s.ruby.AnswerCas? && s.slots[s.ruby.slot].answer != Pending
    ensures Good(DoAnswerCas(s))
  {
    hide Good, Lifecycle.Flags, Lifecycle.Quiet, Lifecycle.Swept, Lifecycle.Active, SameGrip, DoAnswerCas;
    GoodLife(s);
    AnswerLostIs(s);
    AnswerLostLife(s);
    AfterAnswerGrip(s.ruby);
    JobMoveKeeps(s, Rb(s, AfterAnswer(s.ruby.slot, s.ruby.job)));
  }

  lemma SweepFindsKeeps(s: State)
    requires Good(s) && s.ruby.SweepRead? && s.ruby.slot < Cap(s) && s.slots[s.ruby.slot].occupied
    ensures Good(DoSweepRead(s))
  {
    hide Claims, Pcs, Build, Tokens.Inv, Ownership.Inv, Arming.Requests, Arming.Holds, Wakeup.Inv;
    assert Handshake.SlotOk(s, s.ruby.slot);
    JobMoveKeeps(s, DoSweepRead(s));
  }

  lemma DisarmSpinGrip(a: RubyPc, b: RubyPc)
    requires a.DisarmSpin? && Handshake.JobOk(a)
    requires b == if a.again then StoreSequence(a.slot, a.job) else ReleaseMessage(a.slot, a.job)
    ensures SameGrip(a, b)
  {}

  lemma NoOneReads(s: State)
    requires Handshake.Inv(s) && s.ruby.DisarmSpin? && s.slots[s.ruby.slot].readers == 0
    ensures !Handshake.Reads(s.wd, s.ruby.slot)
  {
    assert Handshake.ReaderOk(s, s.ruby.slot);
  }

  lemma DisarmSpinStays(s: State)
    requires Shape(s) && s.ruby.DisarmSpin? && s.ruby.slot < Cap(s) && s.slots[s.ruby.slot].readers != 0
    ensures DoDisarmSpin(s) == s
  {}

  /** The spin ends when no watchdog reads the slot; none can confirm it again. */
  lemma DisarmSpinKeeps(s: State)
    requires Good(s) && s.ruby.DisarmSpin? && s.slots[s.ruby.slot].readers == 0
    ensures Good(DoDisarmSpin(s))
  {
    hide Claims, Pcs, Build, Handshake.Slots, Tokens.Inv, Ownership.Inv, Arming.Requests, Arming.Holds, Wakeup.Inv;
    hide SameGrip;
    NoOneReads(s);
    DisarmSpinGrip(s.ruby, DoDisarmSpin(s).ruby);
    JobMoveKeeps(s, DoDisarmSpin(s));
  }

  lemma AnswerWonBase(s: State)
    requires Base(s) && s.ruby.AnswerCas? && s.slots[s.ruby.slot].answer == Pending
    ensures Base(DoAnswerCas(s))
  {
    var t, i := DoAnswerCas(s), s.ruby.slot;
    assert Handshake.SlotOk(s, i);
    hide Rings.Inv, Claims, Pcs, Build;
    UntouchedKeeps(s, t);
    Handshake.RubySlotKeeps(s, t, i);
  }

  lemma AnswerWonCore(s: State)
    requires Core(s) && s.ruby.AnswerCas? && s.slots[s.ruby.slot].answer == Pending
    ensures Core(DoAnswerCas(s))
  {
    hide Rings.Inv, Claims, Pcs, Build, Handshake.Slots;
    AnswerWonBase(s);
    var t, i := DoAnswerCas(s), s.ruby.slot;
    Tokens.WinKeeps(s, t, i, ByRuby);
    Lifecycle.RubyKeeps(s, t);
  }

  /** The layers that Ruby's slot work leaves alone. */
  lemma SlotWorkKeepsRest(s: State, t: State)
    requires Good(s) && Core(t)
    requires t == s.(ruby := t.ruby, slots := t.slots, tokens := t.tokens, responses := t.responses)
    requires forall j :: 0 <= j < Count(s) && t.tokens[j] == InSlot ==> s.tokens[j] == InSlot
    requires forall i :: 0 <= i < Cap(s) ==> Ownership.Released(t.ruby, i) == Ownership.Released(s.ruby, i)
    requires Wakeup.SameDrain(s.ruby, t.ruby) && Counters.InHand(s.ruby) == Counters.InHand(t.ruby)
    requires !s.ruby.RubyWrite? && !t.ruby.RubyWrite?
    requires !s.ruby.DepthEnq? && !s.ruby.DepthDeq? && !s.ruby.RubyNotify? && !t.ruby.DepthDeq?
    ensures Rest(t)
  {
    hide Rings.Inv, Claims, Pcs, Build, Handshake.Slots, Handshake.Watch, Handshake.Hand, Tokens.Inv, Lifecycle.Inv;
    Ownership.FrameKeeps(s, t);
    Arming.UntouchedKeeps(s, t);
    Wakeup.FrameKeeps(s, t);
    Counters.OtherKeeps(s, t);
  }

  lemma AnswerWonKeeps(s: State)
    requires Good(s) && s.ruby.AnswerCas? && s.slots[s.ruby.slot].answer == Pending
    ensures Good(DoAnswerCas(s))
  {
    hide Rings.Inv, Claims, Pcs, Build, Handshake.Slots, Handshake.Watch, Ownership.Inv, Arming.Requests, Arming.Holds, Wakeup.Inv;
    AnswerWonCore(s);
    SlotWorkKeepsRest(s, DoAnswerCas(s));
  }

  lemma RubySendsItsOwn(s: State)
    requires Core(s) && s.ruby.AnswerSend?
    ensures s.slots[s.ruby.slot].message < Count(s)
    ensures s.tokens[s.slots[s.ruby.slot].message] == InHand(ByRuby)
  {
    Tokens.SendersAreOld(s);
    assert Tokens.MsgToken(s, s.slots[s.ruby.slot].message);
  }

  lemma AnswerSendLife(s: State)
    requires Lifecycle.Inv(s) && s.ruby.AnswerSend? && s.ruby.slot < Cap(s)
    ensures Lifecycle.Inv(DoAnswerSend(s))
  {
    Lifecycle.RubyKeeps(s, DoAnswerSend(s));
  }

  lemma AnswerSendCore(s: State)
    requires Core(s) && s.ruby.AnswerSend?
    ensures Core(DoAnswerSend(s))
  {
    hide Rings.Inv, Claims, Pcs, Build, Handshake.Slots, Tokens.Inv, Lifecycle.Inv;
    RubySendsItsOwn(s);
    var t, m := DoAnswerSend(s), s.slots[s.ruby.slot].message;
    UntouchedKeeps(s, t);
    Handshake.RubyMoveKeeps(s, t);
    Tokens.SendKeeps(s, t, m, ByRuby);
    AnswerSendLife(s);
  }

  lemma AnswerSendKeeps(s: State)
    requires Good(s) && s.ruby.AnswerSend?
    ensures Good(DoAnswerSend(s))
  {
    hide Rings.Inv, Claims, Pcs, Build, Handshake.Slots, Handshake.Watch, Ownership.Inv, Arming.Requests, Arming.Holds, Wakeup.Inv;
    hide Tokens.Inv, Lifecycle.Inv;
    RubySendsItsOwn(s);
    AnswerSendCore(s);
    SlotWorkKeepsRest(s, DoAnswerSend(s));
  }

  lemma DisarmStoreBase(s: State)
    requires Base(s) && s.ruby.DisarmStore?
    ensures Base(DoDisarmStore(s))
  {
    var t, i := DoDisarmStore(s), s.ruby.slot;
    assert Handshake.SlotOk(s, i);
    hide Rings.Inv, Claims, Pcs, Build;
    UntouchedKeeps(s, t);
    Handshake.RubySlotKeeps(s, t, i);
  }

  lemma DisarmStoreCore(s: State)
    requires Core(s) && s.ruby.DisarmStore?
    ensures Core(DoDisarmStore(s))
  {
    hide Rings.Inv, Claims, Pcs, Build, Handshake.Slots;
    DisarmStoreBase(s);
    var t := DoDisarmStore(s);
    Tokens.FrameKeeps(s, t);
    Lifecycle.RubyKeeps(s, t);
  }

  lemma DisarmStoreKeeps(s: State)
    requires Good(s) && s.ruby.DisarmStore?
    ensures Good(DoDisarmStore(s))
  {
    hide Rings.Inv, Claims, Pcs, Build, Handshake.Slots, Handshake.Watch, Ownership.Inv, Arming.Requests, Arming.Holds, Wakeup.Inv;
    DisarmStoreCore(s);
    SlotWorkKeepsRest(s, DoDisarmStore(s));
  }

  // -------------------------------------------------------------- ownership

  /** Ruby's slot is held, whether it belongs to a wrapper or to the closer. */
  lemma WorkedSlotIsHeld(s: State)
    requires Handshake.Hand(s) && (s.ruby.ReleaseMessage? || s.ruby.StoreSequence?)
    ensures s.ruby.slot < Cap(s) && s.queue.cells[s.ruby.slot].phase == Held
  {
    if s.ruby.job.Release? { assert Handshake.WrapperOk(s, s.ruby.job.w); }
  }

  lemma ReleaseMessageLife(s: State)
    requires Lifecycle.Inv(s) && s.ruby.ReleaseMessage? && s.ruby.slot < Cap(s) && Handshake.JobOk(s.ruby)
    ensures Lifecycle.Inv(DoReleaseMessage(s))
  {
    Lifecycle.RubyKeeps(s, DoReleaseMessage(s));
  }

  lemma ReleaseMessageCore(s: State)
    requires Core(s) && s.ruby.ReleaseMessage?
    ensures Core(DoReleaseMessage(s))
  {
    hide Rings.Inv, Claims, Pcs, Build, Handshake.Slots, Tokens.Inv, Lifecycle.Inv;
    var t := DoReleaseMessage(s);
    UntouchedKeeps(s, t);
    Handshake.RubyMoveKeeps(s, t);
    Tokens.FrameKeeps(s, t);
    ReleaseMessageLife(s);
  }

  lemma ReleaseMessageKeeps(s: State)
    requires Good(s) && s.ruby.ReleaseMessage?
    ensures Good(DoReleaseMessage(s))
  {
    hide Rings.Inv, Claims, Pcs, Build, Handshake.Slots, Handshake.Watch, Handshake.Hand, Tokens.Inv, Lifecycle.Inv;
    WorkedSlotIsHeld(s);
    ReleaseMessageCore(s);
    var t := DoReleaseMessage(s);
    Ownership.ReleaseMessageKeeps(s);
    Arming.UntouchedKeeps(s, t);
    Wakeup.FrameKeeps(s, t);
    Counters.OtherKeeps(s, t);
  }

  lemma StoreSequenceBase(s: State)
    requires Base(s) && s.ruby.StoreSequence?
    ensures Base(DoStoreSequence(s))
    ensures s.slots[s.ruby.slot].position == s.queue.cells[s.ruby.slot].cur
  {
    var t, i := DoStoreSequence(s), s.ruby.slot;
    WorkedSlotIsHeld(s);
    assert Handshake.SlotOk(s, i) && ClaimedOk(s, i);
    ReturnKeeps(s.queue, i);
    ConsumeKeeps(s, t, i);
    Handshake.StoreSequenceKeepsSlots(s);
    Handshake.StoreSequenceKeepsHand(s);
  }

  lemma StoreSequenceCore(s: State)
    requires Core(s) && s.ruby.StoreSequence?
    ensures Core(DoStoreSequence(s))
  {
    hide Claims, Pcs, Build, Handshake.Slots;
    StoreSequenceBase(s);
    var t, i := DoStoreSequence(s), s.ruby.slot;
    Tokens.ReturnKeeps(s, t, i);
    Lifecycle.RubyKeeps(s, t);
  }

  lemma StoreSequenceKeeps(s: State)
    requires Good(s) && s.ruby.StoreSequence?
    ensures Good(DoStoreSequence(s))
  {
    hide Rings.Inv, Claims, Pcs, Build, Handshake.Slots, Handshake.Watch, Handshake.Hand, Tokens.Inv, Lifecycle.Inv;
    WorkedSlotIsHeld(s);
    StoreSequenceCore(s);
    var t := DoStoreSequence(s);
    Ownership.StoreSequenceKeeps(s);
    Arming.UntouchedKeeps(s, t);
    Wakeup.FrameKeeps(s, t);
    Counters.OtherKeeps(s, t);
  }

  lemma DeqTakesLife(s: State)
    requires Lifecycle.Inv(s) && s.ruby.DeqCas? && s.ruby.pos == s.queue.deq
    ensures Lifecycle.Inv(DoDeqCas(s, false))
  {
    Lifecycle.RubyKeeps(s, DoDeqCas(s, false));
  }

  lemma DeqTakesCore(s: State)
    requires Core(s) && s.ruby.DeqCas? && s.ruby.pos == s.queue.deq
    ensures Core(DoDeqCas(s, false))
  {
    hide Lifecycle.Inv;
    var t := DoDeqCas(s, false);
    TakeKeeps(s.queue);
    ConsumeKeeps(s, t, At(s.queue.deq, Cap(s)));
    Handshake.DeqCasKeeps(s);
    Tokens.FrameKeeps(s, t);
    DeqTakesLife(s);
  }

  lemma DequeuedIsTakeable(s: State)
    requires Handshake.Hand(s) && s.ruby.DeqCas? && s.ruby.pos == s.queue.deq
    ensures Takeable(s.queue)
  {}

  /** Ruby or the closer wins the dequeue position. */
  lemma DeqTakes(s: State)
    requires Good(s) && s.ruby.DeqCas? && s.ruby.pos == s.queue.deq
    ensures Good(DoDeqCas(s, false))
  {
    hide Rings.Inv, Claims, Pcs, Build, Handshake.Slots, Handshake.Watch, Handshake.Hand, Tokens.Inv, Lifecycle.Inv;
    DeqTakesCore(s);
    DequeuedIsTakeable(s);
    var t := DoDeqCas(s, false);
    Ownership.DeqCasKeeps(s);
    Arming.UntouchedKeeps(s, t);
    Wakeup.FrameKeeps(s, t);
    Counters.OtherKeeps(s, t);
  }

  // -------------------------------------------------------------- wrappers

  /** Only Ruby's point and its wrappers change. */
  lemma WrapperKeepsRest(s: State, t: State)
    requires Good(s) && Core(t)
    requires t == s.(ruby := t.ruby, wrappers := t.wrappers)
    requires forall i :: 0 <= i < Cap(s) ==> Ownership.Released(t.ruby, i) == Ownership.Released(s.ruby, i)
    requires Wakeup.SameDrain(s.ruby, t.ruby) && !s.ruby.RubyWrite? && !t.ruby.RubyWrite?
    requires !s.ruby.DepthEnq? && !s.ruby.DepthDeq? && !s.ruby.RubyNotify? && !t.ruby.DepthDeq?
    requires Counters.InHand(t.ruby) == Counters.InHand(s.ruby)
    ensures Rest(t)
  {
    hide Rings.Inv, Claims, Pcs, Build, Handshake.Slots, Handshake.Watch, Handshake.Hand, Tokens.Inv, Lifecycle.Inv;
    Ownership.FrameKeeps(s, t);
    Arming.UntouchedKeeps(s, t);
    Wakeup.FrameKeeps(s, t);
    Counters.OtherKeeps(s, t);
  }

  lemma WrapKeeps(s: State)
    requires Good(s) && s.ruby.Wrap?
    ensures Good(DoWrap(s))
  {
    hide Ownership.Inv, Arming.Requests, Arming.Holds, Wakeup.Inv, Counters.Inv;
    var t := DoWrap(s);
    UntouchedKeeps(s, t);
    Handshake.WrapKeeps(s);
    Tokens.FrameKeeps(s, t);
    Lifecycle.RubyKeeps(s, t);
    WrapperKeepsRest(s, t);
  }

  lemma InvalidateLife(s: State)
    requires Lifecycle.Inv(s) && s.ruby.Invalidate? && s.ruby.w in s.wrappers && Handshake.JobOk(s.ruby)
    ensures Lifecycle.Inv(DoInvalidate(s))
  {
    Lifecycle.RubyKeeps(s, DoInvalidate(s));
  }

  lemma InvalidateKeeps(s: State)
    requires Good(s) && s.ruby.Invalidate?
    ensures Good(DoInvalidate(s))
  {
    hide Rings.Inv, Claims, Pcs, Build, Handshake.Slots, Handshake.Watch, Tokens.Inv, Lifecycle.Inv;
    hide Ownership.Inv, Arming.Requests, Arming.Holds, Wakeup.Inv, Counters.Inv;
    var t := DoInvalidate(s);
    UntouchedKeeps(s, t);
    Handshake.InvalidateKeeps(s);
    Tokens.FrameKeeps(s, t);
    InvalidateLife(s);
    WrapperKeepsRest(s, t);
  }

  // -------------------------------------------------------------- calls

  lemma CallRetainKeeps(s: State, w: nat)
    requires Good(s) && s.ruby == Idle && w in s.wrappers && s.wrappers[w].valid
    ensures Good(Begin(s, CmdRetain(w)))
  {
    hide Ownership.Inv, Arming.Requests, Arming.Holds, Wakeup.Inv, Counters.Inv;
    var t := Begin(s, CmdRetain(w));
    UntouchedKeeps(s, t);
    Handshake.RetainKeeps(s, w);
    Tokens.FrameKeeps(s, t);
    Lifecycle.RubyKeeps(s, t);
    WrapperKeepsRest(s, t);
  }

  lemma WrapperHasSlot(s: State, w: nat)
    requires Good(s) && w in s.wrappers
    ensures s.wrappers[w].slot < Cap(s)
  {
    assert Handshake.WrapperOk(s, w);
  }

  /** respond, release! and auto-release begin with a valid wrapper, between two calls;
      a finaliser does so in the middle of a drain as well. */
  lemma CallJobKeeps(s: State, w: nat, job: Job)
    requires Good(s) && (s.ruby == Idle || s.ruby.MakeArray? || s.ruby.Wrap?)
    requires w in s.wrappers && s.wrappers[w].valid
    requires (job == Respond(w) && s.ruby == Idle) || job == Release(w, s.ruby)
    ensures Good(Rb(s, RespondCheck(s.wrappers[w].slot, job)))
  {
    hide Good, Lifecycle.Active, SameGrip;
    GoodLife(s);
    WrapperHasSlot(s, w);
    BeginGrip(s.ruby, s.wrappers[w].slot, job);
    JobMoveKeeps(s, Rb(s, RespondCheck(s.wrappers[w].slot, job)));
  }

  lemma CollectKeeps(s: State, w: nat)
    requires Good(s) && (s.ruby.MakeArray? || s.ruby.Wrap?)
    ensures Good(Collect(s, w))
  {
    hide Good;
    if w in s.wrappers && s.wrappers[w].valid {
      CallJobKeeps(s, w, Release(w, s.ruby));
    } else {
      assert Collect(s, w) == s;
    }
  }

  lemma CallOtherKeeps(s: State, pc: RubyPc)
    requires Good(s) && s.ruby == Idle && (pc == CloseSwap || pc == RubyNotify(false))
    ensures Good(Rb(s, pc))
  {
    hide Claims, Pcs, Build, Handshake.Slots, Tokens.Inv, Ownership.Inv, Arming.Requests, Arming.Holds, Wakeup.Inv;
    WalkKeeps(s, Rb(s, pc));
  }

  lemma CallDrainKeeps(s: State, n: int)
    requires Good(s) && s.ruby == Idle && !s.closed
    ensures Good(Rb(s, DrainEmpty(n)))
  {
    var t := Rb(s, DrainEmpty(n));
    Wakeup.EmptyingKeeps(s, t);
    hide Claims, Pcs, Build, Handshake.Slots, Tokens.Inv, Ownership.Inv, Arming.Requests, Arming.Holds, Wakeup.Inv;
    StrollKeeps(s, t);
  }

  lemma FirstPointKeeps(s: State, c: Command)
    requires Good(s) && s.ruby == Idle
    ensures Good(Rb(s, FirstPoint(s, c)))
  {
    hide Good;
    var pc := FirstPoint(s, c);
    if pc == Idle {
      assert Rb(s, pc) == s;
    } else {
      match c
      case CmdDrain(n) => CallDrainKeeps(s, n);
      case CmdRespond(w) => CallJobKeeps(s, w, Respond(w));
      case CmdRelease(w) => CallJobKeeps(s, w, Release(w, Idle));
      case CmdAutoRelease(w) => CallJobKeeps(s, w, Release(w, Idle));
      case _ => CallOtherKeeps(s, pc);
    }
  }

  lemma CallKeeps(s: State, c: Command)
    requires Good(s) && s.ruby == Idle
    ensures Good(Begin(s, c))
  {
    hide Good, FirstPoint;
    match c
    case CmdRetain(w) => if w in s.wrappers && s.wrappers[w].valid { CallRetainKeeps(s, w); }
    case _ => FirstPointKeeps(s, c);
  }
}
