/** Every step of handle_message keeps the invariant.

    A step that can go several ways has one lemma for each: the sequence read of
    esrb_queue_enqueue, for instance, sees a free cell, a stale position or a full
    ring (`EnqSeesFree`, `EnqSeesStale`, `RingFullKeeps`).  Its proof goes up the
    layers: `...Base` for claims, slots and handshake, `...Core` for the tokens and
    the close protocol on top of them, and the lemma itself for the layers that
    only rest on these: ownership, arming, wakeup and statistics.

    A step that moves the callback between two points that are alike for every
    layer, and touches at most the depth maximum, needs none of that: `Moves` in
    module Steps covers it. */
module CallbackSteps {
  import opened Rings
  import opened Protocol
  import opened Structure
  import Handshake
  import Tokens
  import Lifecycle
  import Ownership
  import Arming
  import Wakeup
  import Counters
  import opened Steps

  predicate CallbackIs(s: State, m: nat, pc: CallbackPc) { CallbackReady(s, m) && s.pcs[m] == pc }

  /** A callback past the preparation of its slot finds its own data there. */
  lemma MySlotIsMine(s: State, m: nat)
    requires Base(s) && CallbackReady(s, m) && NeedsSlot(s.pcs[m])
    ensures var i := MySlot(s, m);
      && s.queue.cells[i].cur == s.fates[m].pos && s.queue.cells[i].phase == Claimed
      && s.stages[i] == StageFor(s.pcs[m]) && !Handshake.Disarmed(s.ruby, i)
      && s.fates[m].pos < |s.claims| && s.claims[s.fates[m].pos] == m && Handshake.SlotOk(s, i)
      && (s.stages[i] != Blank ==> s.slots[i].position == s.fates[m].pos && s.slots[i].message == m)
  {
    assert BuildOk(s, m) && FateOk(s, m) && Handshake.SlotOk(s, MySlot(s, m));
    if Handshake.Disarmed(s.ruby, MySlot(s, m)) { Handshake.DisarmedIsHeld(s, MySlot(s, m)); }
  }

  lemma NotPendingIsNotParked(s: State, m: nat)
    requires Core(s) && CallbackReady(s, m) && NeedsSlot(s.pcs[m]) && s.slots[MySlot(s, m)].answer != Pending
    ensures s.tokens[m] != InSlot
  {
    assert Tokens.MsgToken(s, m) && Tokens.SlotToken(s, MySlot(s, m)) && FateOk(s, m);
  }

  /** Only AUTH messages carry a token. */
  lemma TokenForAuth(s: State, m: nat)
    requires Tokens.Inv(s) && m < Count(s)
    ensures s.tokens[m] == NoToken <==> !s.auth[m]
  {
    assert Tokens.MsgToken(s, m);
  }

  // -------------------------------------------------------------- moves

  lemma MoveKeeps(s: State, t: State, m: nat)
    requires Good(s) && CallbackReady(s, m) && Steps.Moves(s, t, m)
    requires PcOk(s, m) && Counters.DepthOk(s, m) ==> PcOk(t, m) && Counters.DepthOk(t, m)
    requires s.depthMax <= t.depthMax <= Cap(s) && t.depthMax == t.topDepth
    ensures Good(t)
  {
    assert PcOk(s, m) && Counters.DepthOk(s, m);
    MoveKeepsCore(s, t, m);
    MoveKeepsRest(s, t, m);
  }

  lemma MoveFacts(s: State, m: nat)
    requires Good(s) && CallbackReady(s, m)
    ensures PcOk(s, m) && Counters.DepthOk(s, m) && s.depthMax == s.topDepth <= Cap(s)
  {}

  lemma EnqLoadKeeps(s: State, m: nat)
    requires Good(s) && CallbackReady(s, m) && s.pcs[m].EnqLoad?
    ensures Good(DoEnqLoad(s, m))
  {
    hide Good;
    MoveFacts(s, m);
    MoveKeeps(s, DoEnqLoad(s, m), m);
  }

  lemma EnqSeesFree(s: State, m: nat)
    requires Good(s) && CallbackReady(s, m) && s.pcs[m].EnqRead?
    requires s.queue.cells[At(s.pcs[m].pos, Cap(s))].sequence == s.pcs[m].pos
    ensures Good(DoEnqRead(s, m))
  {
    hide Good;
    MoveFacts(s, m);
    MoveKeeps(s, DoEnqRead(s, m), m);
  }

  lemma EnqSeesStale(s: State, m: nat)
    requires Good(s) && CallbackReady(s, m) && s.pcs[m].EnqRead?
    requires s.queue.cells[At(s.pcs[m].pos, Cap(s))].sequence > s.pcs[m].pos
    ensures Good(DoEnqRead(s, m))
  {
    hide Good;
    MoveFacts(s, m);
    MoveKeeps(s, DoEnqRead(s, m), m);
  }

  lemma EnqRetryKeeps(s: State, m: nat, spurious: bool)
    requires Good(s) && CallbackReady(s, m) && s.pcs[m].EnqCas? && (spurious || s.pcs[m].pos != s.queue.enq)
    ensures Good(DoEnqCas(s, m, spurious))
  {
    hide Good;
    MoveFacts(s, m);
    MoveKeeps(s, DoEnqCas(s, m, spurious), m);
  }

  lemma ArmLoadKeeps(s: State, m: nat)
    requires Good(s) && CallbackReady(s, m) && s.pcs[m].ArmLoad?
    ensures Good(DoArmLoad(s, m))
  {
    hide Good;
    MoveFacts(s, m);
    MoveKeeps(s, DoArmLoad(s, m), m);
  }

  lemma ArmSeesFree(s: State, m: nat)
    requires Good(s) && CallbackReady(s, m) && s.pcs[m].ArmRead?
    requires s.requests.cells[At(s.pcs[m].at, Cap(s))].sequence == s.pcs[m].at
    ensures Good(DoArmRead(s, m))
  {
    hide Good;
    MoveFacts(s, m);
    MoveKeeps(s, DoArmRead(s, m), m);
  }

  lemma ArmSeesFull(s: State, m: nat)
    requires Good(s) && CallbackReady(s, m) && s.pcs[m].ArmRead?
    requires s.requests.cells[At(s.pcs[m].at, Cap(s))].sequence < s.pcs[m].at
    ensures Good(DoArmRead(s, m))
  {
    hide Good;
    MoveFacts(s, m);
    MoveKeeps(s, DoArmRead(s, m), m);
  }

  lemma ArmSeesStale(s: State, m: nat)
    requires Good(s) && CallbackReady(s, m) && s.pcs[m].ArmRead?
    requires s.requests.cells[At(s.pcs[m].at, Cap(s))].sequence > s.pcs[m].at
    ensures Good(DoArmRead(s, m))
  {
    hide Good;
    MoveFacts(s, m);
    MoveKeeps(s, DoArmRead(s, m), m);
  }

  lemma ArmRetryKeeps(s: State, m: nat, spurious: bool)
    requires Good(s) && CallbackReady(s, m) && s.pcs[m].ArmCas? && (spurious || s.pcs[m].at != s.requests.enq)
    ensures Good(DoArmCas(s, m, spurious))
  {
    hide Good;
    MoveFacts(s, m);
    MoveKeeps(s, DoArmCas(s, m, spurious), m);
  }

  lemma PubLoadDepth(s: State, m: nat)
    requires Good(s) && CallbackReady(s, m) && s.pcs[m].PubLoad?
    ensures 1 <= s.slots[MySlot(s, m)].position + 1 - s.queue.deq <= Cap(s)
  {
    MySlotIsMine(s, m);
    Counters.PublishDepth(s, m);
  }

  lemma PubLoadKeeps(s: State, m: nat)
    requires Good(s) && CallbackReady(s, m) && s.pcs[m].PubLoad?
    ensures Good(DoPubLoad(s, m))
  {
    hide Good;
    MoveFacts(s, m);
    PubLoadDepth(s, m);
    MoveKeeps(s, DoPubLoad(s, m), m);
  }

  lemma PubMaxKeeps(s: State, m: nat)
    requires Good(s) && CallbackReady(s, m) && s.pcs[m].PubMax?
    ensures Good(DoPubMax(s, m))
  {
    hide Good;
    MoveFacts(s, m);
    MoveKeeps(s, DoPubMax(s, m), m);
  }

  lemma PubCasRetries(s: State, m: nat, spurious: bool)
    requires Good(s) && CallbackReady(s, m) && s.pcs[m].PubCas? && s.pcs[m].depth > s.pcs[m].maximum
    requires spurious || s.depthMax != s.pcs[m].maximum
    ensures Good(DoPubCas(s, m, spurious))
  {
    hide Good;
    MoveFacts(s, m);
    MoveKeeps(s, DoPubCas(s, m, spurious), m);
  }

  lemma PubCasRaises(s: State, m: nat)
    requires Good(s) && CallbackReady(s, m) && s.pcs[m].PubCas? && s.pcs[m].depth > s.pcs[m].maximum == s.depthMax
    ensures Good(DoPubCas(s, m, false))
  {
    hide Good;
    MoveFacts(s, m);
    MoveKeeps(s, DoPubCas(s, m, false), m);
  }

  lemma PubCasEnds(s: State, m: nat, spurious: bool)
    requires Good(s) && CallbackReady(s, m) && s.pcs[m].PubCas? && s.pcs[m].depth <= s.pcs[m].maximum
    ensures Good(DoPubCas(s, m, spurious))
  {
    hide Good;
    MoveFacts(s, m);
    MoveKeeps(s, DoPubCas(s, m, spurious), m);
  }

  // -------------------------------------------------------------- turned away, retained, dropped

  lemma CheckRefusesCore(s: State, m: nat)
    requires Core(s) && CallbackIs(s, m, Check) && s.closed
    ensures Core(DoCheck(s, m))
  {
    var t := DoCheck(s, m);
    assert PcOk(s, m);
    TurnedAwayKeeps(s, t, m);
    Handshake.UntouchedKeeps(s, t);
    Tokens.FrameKeeps(s, t);
    Lifecycle.CallbackKeeps(s, t, m);
  }

  lemma CheckRefuses(s: State, m: nat)
    requires Good(s) && CallbackIs(s, m, Check) && s.closed
    ensures Good(DoCheck(s, m))
  {
    hide Rings.Inv, Claims, Build, Handshake.Slots, Handshake.Watch, Handshake.Hand, Tokens.Inv, Lifecycle.Inv;
    CheckRefusesCore(s, m);
    var t := DoCheck(s, m);
    assert PcOk(s, m) && Counters.DepthOk(s, m) && Counters.DecidingOk(s, m);
    assert Ownership.MsgOwner(s, m);
    Ownership.OwnKeeps(s, t, m);
    SilentKeepsRest(s, t, m);
  }

  lemma CheckPassesCore(s: State, m: nat)
    requires Core(s) && CallbackIs(s, m, Check) && !s.closed
    ensures Core(DoCheck(s, m))
  {
    var t := DoCheck(s, m);
    assert PcOk(s, m);
    Structure.MovesKeeps(s, t, m);
    Handshake.UntouchedKeeps(s, t);
    Tokens.FrameKeeps(s, t);
    Lifecycle.CallbackKeeps(s, t, m);
  }

  lemma CheckPasses(s: State, m: nat)
    requires Good(s) && CallbackIs(s, m, Check) && !s.closed
    ensures Good(DoCheck(s, m))
  {
    hide Rings.Inv, Claims, Build, Handshake.Slots, Handshake.Watch, Handshake.Hand, Tokens.Inv, Lifecycle.Inv;
    CheckPassesCore(s, m);
    var t := DoCheck(s, m);
    assert PcOk(s, m) && Counters.DepthOk(s, m) && Counters.DecidingOk(s, m);
    Ownership.FrameKeeps(s, t);
    SilentKeepsRest(s, t, m);
  }

  /** A refused AUTH message is answered at once. */
  lemma RefuseKeepsCore(s: State, m: nat)
    requires Core(s) && CallbackIs(s, m, Refuse)
    ensures Core(DoRefuse(s, m))
  {
    var t := DoRefuse(s, m);
    assert PcOk(s, m);
    Structure.MovesKeeps(s, t, m);
    Handshake.UntouchedKeeps(s, t);
    Tokens.TurnedAwaySendKeeps(s, t, m);
    Lifecycle.CallbackKeeps(s, t, m);
  }

  lemma RefuseKeeps(s: State, m: nat)
    requires Good(s) && CallbackIs(s, m, Refuse)
    ensures Good(DoRefuse(s, m))
  {
    hide Rings.Inv, Claims, Build, Handshake.Slots, Handshake.Watch, Handshake.Hand, Tokens.Inv, Lifecycle.Inv;
    RefuseKeepsCore(s, m);
    var t := DoRefuse(s, m);
    assert PcOk(s, m) && Counters.DepthOk(s, m) && Counters.DecidingOk(s, m);
    assert Ownership.MsgOwner(s, m);
    Ownership.OwnKeeps(s, t, m);
    SilentKeepsRest(s, t, m);
  }

  lemma RetainKeepsCore(s: State, m: nat)
    requires Core(s) && CallbackIs(s, m, Retain)
    ensures Core(DoRetain(s, m))
  {
    var t := DoRetain(s, m);
    assert PcOk(s, m);
    Structure.MovesKeeps(s, t, m);
    Handshake.UntouchedKeeps(s, t);
    Tokens.FrameKeeps(s, t);
    Lifecycle.CallbackKeeps(s, t, m);
  }

  lemma RetainKeeps(s: State, m: nat)
    requires Good(s) && CallbackIs(s, m, Retain)
    ensures Good(DoRetain(s, m))
  {
    hide Rings.Inv, Claims, Build, Handshake.Slots, Handshake.Watch, Handshake.Hand, Tokens.Inv, Lifecycle.Inv;
    RetainKeepsCore(s, m);
    var t := DoRetain(s, m);
    assert PcOk(s, m) && Counters.DepthOk(s, m) && Counters.DecidingOk(s, m);
    assert Ownership.MsgOwner(s, m);
    Ownership.OwnKeeps(s, t, m);
    SilentKeepsRest(s, t, m);
  }

  lemma RingFullKeepsCore(s: State, m: nat)
    requires Core(s) && CallbackReady(s, m) && s.pcs[m].EnqRead?
    requires s.queue.cells[At(s.pcs[m].pos, Cap(s))].sequence < s.pcs[m].pos
    ensures Core(DoEnqRead(s, m))
  {
    var t := DoEnqRead(s, m);
    assert PcOk(s, m);
    TurnedAwayKeeps(s, t, m);
    Handshake.UntouchedKeeps(s, t);
    Tokens.FrameKeeps(s, t);
    Lifecycle.CallbackKeeps(s, t, m);
  }

  lemma RingFullKeeps(s: State, m: nat)
    requires Good(s) && CallbackReady(s, m) && s.pcs[m].EnqRead?
    requires s.queue.cells[At(s.pcs[m].pos, Cap(s))].sequence < s.pcs[m].pos
    ensures Good(DoEnqRead(s, m))
  {
    hide Rings.Inv, Claims, Build, Handshake.Slots, Handshake.Watch, Handshake.Hand, Tokens.Inv, Lifecycle.Inv;
    RingFullKeepsCore(s, m);
    var t := DoEnqRead(s, m);
    assert PcOk(s, m) && Counters.DepthOk(s, m) && Counters.DecidingOk(s, m);
    assert Ownership.MsgOwner(s, m);
    Ownership.OwnKeeps(s, t, m);
    SilentKeepsRest(s, t, m);
  }

  /** An AUTH message that finds the ring full is answered at once. */
  lemma FullKeepsCore(s: State, m: nat)
    requires Core(s) && CallbackIs(s, m, Full)
    ensures Core(DoFull(s, m))
  {
    var t := DoFull(s, m);
    assert PcOk(s, m);
    Structure.MovesKeeps(s, t, m);
    Handshake.UntouchedKeeps(s, t);
    Tokens.TurnedAwaySendKeeps(s, t, m);
    Lifecycle.CallbackKeeps(s, t, m);
  }

  lemma FullKeeps(s: State, m: nat)
    requires Good(s) && CallbackIs(s, m, Full)
    ensures Good(DoFull(s, m))
  {
    hide Rings.Inv, Claims, Build, Handshake.Slots, Handshake.Watch, Handshake.Hand, Tokens.Inv, Lifecycle.Inv;
    FullKeepsCore(s, m);
    var t := DoFull(s, m);
    assert PcOk(s, m) && Counters.DepthOk(s, m) && Counters.DecidingOk(s, m);
    Ownership.FrameKeeps(s, t);
    SilentKeepsRest(s, t, m);
  }

  lemma FullCountKeepsCore(s: State, m: nat)
    requires Core(s) && CallbackIs(s, m, FullCount)
    ensures Core(DoFullCount(s, m))
  {
    var t := DoFullCount(s, m);
    assert PcOk(s, m);
    Structure.MovesKeeps(s, t, m);
    Handshake.UntouchedKeeps(s, t);
    Tokens.FrameKeeps(s, t);
    Lifecycle.CallbackKeeps(s, t, m);
  }

  lemma FullCountKeeps(s: State, m: nat)
    requires Good(s) && CallbackIs(s, m, FullCount)
    ensures Good(DoFullCount(s, m))
  {
    hide Rings.Inv, Claims, Build, Handshake.Slots, Handshake.Watch, Handshake.Hand, Tokens.Inv, Lifecycle.Inv;
    FullCountKeepsCore(s, m);
    var t := DoFullCount(s, m);
    assert PcOk(s, m) && Counters.DepthOk(s, m) && Counters.DecidingOk(s, m);
    Ownership.FrameKeeps(s, t);
    SilentKeepsRest(s, t, m);
  }

  lemma FullReleaseKeepsCore(s: State, m: nat)
    requires Core(s) && CallbackIs(s, m, FullRelease)
    ensures Core(DoFullRelease(s, m))
  {
    var t := DoFullRelease(s, m);
    assert PcOk(s, m);
    Structure.MovesKeeps(s, t, m);
    Handshake.UntouchedKeeps(s, t);
    Tokens.FrameKeeps(s, t);
    Lifecycle.CallbackKeeps(s, t, m);
  }

  lemma FullReleaseKeeps(s: State, m: nat)
    requires Good(s) && CallbackIs(s, m, FullRelease)
    ensures Good(DoFullRelease(s, m))
  {
    hide Rings.Inv, Claims, Build, Handshake.Slots, Handshake.Watch, Handshake.Hand, Tokens.Inv, Lifecycle.Inv;
    FullReleaseKeepsCore(s, m);
    var t := DoFullRelease(s, m);
    assert PcOk(s, m) && Counters.DepthOk(s, m) && Counters.DecidingOk(s, m);
    assert Ownership.MsgOwner(s, m);
    Ownership.OwnKeeps(s, t, m);
    SilentKeepsRest(s, t, m);
  }

  // -------------------------------------------------------------- claiming and preparing a slot

  lemma FillKeepsBase(s: State, m: nat)
    requires Base(s) && CallbackIs(s, m, Fill)
    ensures Base(DoFill(s, m))
  {
    var t := DoFill(s, m);
    assert PcOk(s, m);
    var i := MySlot(s, m);
    MySlotIsMine(s, m);
    PrepareKeeps(s, t, m);
    Handshake.BuildsKeepsSlots(s, t, i, m);
    Handshake.BuildsKeepsHand(s, t, i);
  }

  lemma FillKeepsCore(s: State, m: nat)
    requires Core(s) && CallbackIs(s, m, Fill)
    ensures Core(DoFill(s, m))
  {
    var t := DoFill(s, m);
    assert PcOk(s, m);
    var i := MySlot(s, m);
    MySlotIsMine(s, m);
    FillKeepsBase(s, m);
    Tokens.FrameKeeps(s, t);
    Lifecycle.CallbackKeeps(s, t, m);
  }

  lemma FillKeeps(s: State, m: nat)
    requires Good(s) && CallbackIs(s, m, Fill)
    ensures Good(DoFill(s, m))
  {
    hide Rings.Inv, Claims, Build, Handshake.Slots, Handshake.Watch, Handshake.Hand, Tokens.Inv, Lifecycle.Inv;
    FillKeepsCore(s, m);
    var t := DoFill(s, m);
    assert PcOk(s, m) && Counters.DepthOk(s, m) && Counters.DecidingOk(s, m);
    Ownership.FrameKeeps(s, t);
    SilentKeepsRest(s, t, m);
  }

  lemma SetAnswerKeepsBase(s: State, m: nat)
    requires Base(s) && CallbackIs(s, m, SetAnswer)
    ensures Base(DoSetAnswer(s, m))
  {
    var t := DoSetAnswer(s, m);
    assert PcOk(s, m);
    var i := MySlot(s, m);
    MySlotIsMine(s, m);
    PrepareKeeps(s, t, m);
    Handshake.BuildsKeepsSlots(s, t, i, m);
    Handshake.BuildsKeepsHand(s, t, i);
  }

  lemma SetAnswerKeepsCore(s: State, m: nat)
    requires Core(s) && CallbackIs(s, m, SetAnswer)
    ensures Core(DoSetAnswer(s, m))
  {
    var t := DoSetAnswer(s, m);
    assert PcOk(s, m);
    var i := MySlot(s, m);
    MySlotIsMine(s, m);
    SetAnswerKeepsBase(s, m);
    Tokens.SetAnswerKeeps(s, m);
    Lifecycle.CallbackKeeps(s, t, m);
  }

  lemma SetAnswerKeeps(s: State, m: nat)
    requires Good(s) && CallbackIs(s, m, SetAnswer)
    ensures Good(DoSetAnswer(s, m))
  {
    hide Rings.Inv, Claims, Build, Handshake.Slots, Handshake.Watch, Handshake.Hand, Tokens.Inv, Lifecycle.Inv;
    SetAnswerKeepsCore(s, m);
    var t := DoSetAnswer(s, m);
    assert PcOk(s, m) && Counters.DepthOk(s, m) && Counters.DecidingOk(s, m);
    Ownership.FrameKeeps(s, t);
    SilentKeepsRest(s, t, m);
  }

  lemma SetOccupiedKeepsBase(s: State, m: nat)
    requires Base(s) && CallbackIs(s, m, SetOccupied)
    ensures Base(DoSetOccupied(s, m))
  {
    var t := DoSetOccupied(s, m);
    assert PcOk(s, m);
    var i := MySlot(s, m);
    MySlotIsMine(s, m);
    PrepareKeeps(s, t, m);
    Handshake.BuildsKeepsSlots(s, t, i, m);
    Handshake.BuildsKeepsHand(s, t, i);
  }

  lemma SetOccupiedKeepsCore(s: State, m: nat)
    requires Core(s) && CallbackIs(s, m, SetOccupied)
    ensures Core(DoSetOccupied(s, m))
  {
    var t := DoSetOccupied(s, m);
    assert PcOk(s, m);
    var i := MySlot(s, m);
    MySlotIsMine(s, m);
    SetOccupiedKeepsBase(s, m);
    Tokens.FrameKeeps(s, t);
    Lifecycle.CallbackKeeps(s, t, m);
  }

  lemma SetOccupiedKeeps(s: State, m: nat)
    requires Good(s) && CallbackIs(s, m, SetOccupied)
    ensures Good(DoSetOccupied(s, m))
  {
    hide Rings.Inv, Claims, Build, Handshake.Slots, Handshake.Watch, Handshake.Hand, Tokens.Inv, Lifecycle.Inv;
    hide Ownership.Inv, Arming.Requests, Arming.Holds, Wakeup.Inv;
    SetOccupiedKeepsCore(s, m);
    var t := DoSetOccupied(s, m);
    assert PcOk(s, m) && Counters.DepthOk(s, m) && Counters.DecidingOk(s, m);
    TokenForAuth(s, m);
    Ownership.FrameKeeps(s, t);
    SilentKeepsRest(s, t, m);
  }

  /** A callback wins the enqueue position: the cell is free and becomes its own. */
  lemma EnqClaimsBase(s: State, m: nat)
    requires Base(s) && CallbackIs(s, m, EnqCas(s.queue.enq))
    ensures Base(DoEnqCas(s, m, false))
  {
    var t := DoEnqCas(s, m, false);
    assert PcOk(s, m);
    ClaimKeepsClaims(s, m);
    ClaimKeepsPcs(s, m);
    ClaimKeepsBuild(s, m);
    var i := At(s.queue.enq, Cap(s));
    Rings.ClaimKeeps(s.queue);
    assert Handshake.SlotOk(s, i);
    Handshake.BuildsKeepsSlots(s, t, i, m);
    Handshake.BuildsKeepsHand(s, t, i);
  }

  lemma EnqClaimsCore(s: State, m: nat)
    requires Core(s) && CallbackIs(s, m, EnqCas(s.queue.enq))
    ensures Core(DoEnqCas(s, m, false))
  {
    var t := DoEnqCas(s, m, false);
    assert PcOk(s, m);
    EnqClaimsBase(s, m);
    Rings.ClaimKeeps(s.queue);
    Tokens.FrameKeeps(s, t);
    Lifecycle.CallbackKeeps(s, t, m);
  }

  lemma EnqClaims(s: State, m: nat)
    requires Good(s) && CallbackIs(s, m, EnqCas(s.queue.enq))
    ensures Good(DoEnqCas(s, m, false))
  {
    hide Rings.Inv, Claims, Build, Handshake.Slots, Handshake.Watch, Handshake.Hand, Tokens.Inv, Lifecycle.Inv;
    EnqClaimsCore(s, m);
    var t := DoEnqCas(s, m, false);
    assert PcOk(s, m) && Counters.DepthOk(s, m) && Counters.DecidingOk(s, m);
    Ownership.ClaimKeeps(s, m);
    SilentKeepsRest(s, t, m);
  }

  // -------------------------------------------------------------- arming and publishing

  lemma ArmClaimsBase(s: State, m: nat)
    requires Base(s) && CallbackIs(s, m, ArmCas(s.requests.enq))
    ensures Base(DoArmCas(s, m, false))
  {
    var t := DoArmCas(s, m, false);
    assert PcOk(s, m);
    Rings.ClaimKeeps(s.requests);
    Structure.MovesKeeps(s, t, m);
    Handshake.UntouchedKeeps(s, t);
  }

  lemma ArmClaimsCore(s: State, m: nat)
    requires Core(s) && CallbackIs(s, m, ArmCas(s.requests.enq))
    ensures Core(DoArmCas(s, m, false))
  {
    var t := DoArmCas(s, m, false);
    assert PcOk(s, m);
    ArmClaimsBase(s, m);
    Tokens.FrameKeeps(s, t);
    Lifecycle.CallbackKeeps(s, t, m);
  }

  lemma ArmClaims(s: State, m: nat)
    requires Good(s) && CallbackIs(s, m, ArmCas(s.requests.enq))
    ensures Good(DoArmCas(s, m, false))
  {
    hide Rings.Inv, Claims, Build, Handshake.Slots, Handshake.Watch, Handshake.Hand, Tokens.Inv, Lifecycle.Inv;
    ArmClaimsCore(s, m);
    var t := DoArmCas(s, m, false);
    assert PcOk(s, m) && Counters.DepthOk(s, m) && Counters.DecidingOk(s, m);
    Ownership.FrameKeeps(s, t);
    Arming.ArmCasKeepsRequests(s, m);
    Arming.ArmCasKeepsHolds(s, m);
    Wakeup.FrameKeeps(s, t);
    Counters.CallbackKeeps(s, t, m);
  }

  lemma ArmFillKeepsCore(s: State, m: nat)
    requires Core(s) && CallbackReady(s, m) && s.pcs[m].ArmFill?
    ensures Core(DoArmFill(s, m))
  {
    hide Rings.Inv, Claims, Build, Handshake.Slots, Handshake.Watch, Handshake.Hand, Tokens.Inv;
    var t := DoArmFill(s, m);
    assert PcOk(s, m);
    Structure.MovesKeeps(s, t, m);
    Handshake.UntouchedKeeps(s, t);
    Tokens.FrameKeeps(s, t);
    Lifecycle.CallbackKeeps(s, t, m);
  }

  lemma ArmFillKeeps(s: State, m: nat)
    requires Good(s) && CallbackReady(s, m) && s.pcs[m].ArmFill?
    ensures Good(DoArmFill(s, m))
  {
    hide Rings.Inv, Claims, Build, Handshake.Slots, Handshake.Watch, Handshake.Hand, Tokens.Inv, Lifecycle.Inv;
    ArmFillKeepsCore(s, m);
    var t := DoArmFill(s, m);
    assert PcOk(s, m) && Counters.DepthOk(s, m) && Counters.DecidingOk(s, m);
    Ownership.FrameKeeps(s, t);
    Arming.ArmFillKeepsRequests(s, m);
    Arming.ArmFillKeepsHolds(s, m);
    Wakeup.FrameKeeps(s, t);
    Counters.CallbackKeeps(s, t, m);
  }

  lemma ArmPublishKeepsCore(s: State, m: nat)
    requires Good(s) && CallbackReady(s, m) && s.pcs[m].ArmPublish?
    ensures Core(DoArmPublish(s, m))
  {
    var t := DoArmPublish(s, m);
    assert PcOk(s, m);
    hide Ownership.Inv, Arming.Requests, Arming.Holds, Wakeup.Inv, Counters.Inv;
    Arming.ArmPublishKeepsRing(s, m);
    Structure.MovesKeeps(s, t, m);
    Handshake.UntouchedKeeps(s, t);
    Tokens.FrameKeeps(s, t);
    Lifecycle.CallbackKeeps(s, t, m);
  }

  lemma ArmPublishKeeps(s: State, m: nat)
    requires Good(s) && CallbackReady(s, m) && s.pcs[m].ArmPublish?
    ensures Good(DoArmPublish(s, m))
  {
    hide Rings.Inv, Claims, Build, Handshake.Slots, Handshake.Watch, Handshake.Hand, Tokens.Inv, Lifecycle.Inv;
    ArmPublishKeepsCore(s, m);
    var t := DoArmPublish(s, m);
    assert PcOk(s, m) && Counters.DepthOk(s, m) && Counters.DecidingOk(s, m);
    Ownership.FrameKeeps(s, t);
    Arming.ArmPublishKeepsRequests(s, m);
    Arming.ArmPublishKeepsHolds(s, m);
    Wakeup.FrameKeeps(s, t);
    Counters.CallbackKeeps(s, t, m);
  }

  lemma SelfLoseKeepsCore(s: State, m: nat)
    requires Core(s) && CallbackIs(s, m, SelfCas) && s.slots[MySlot(s, m)].answer != Pending
    ensures Core(DoSelfCas(s, m))
  {
    var t := DoSelfCas(s, m);
    assert PcOk(s, m);
    Structure.MovesKeeps(s, t, m);
    Handshake.UntouchedKeeps(s, t);
    Tokens.FrameKeeps(s, t);
    Lifecycle.CallbackKeeps(s, t, m);
  }

  lemma SelfLoseKeeps(s: State, m: nat)
    requires Good(s) && CallbackIs(s, m, SelfCas) && s.slots[MySlot(s, m)].answer != Pending
    ensures Good(DoSelfCas(s, m))
  {
    hide Rings.Inv, Claims, Build, Handshake.Slots, Handshake.Watch, Handshake.Hand, Tokens.Inv, Lifecycle.Inv;
    SelfLoseKeepsCore(s, m);
    var t := DoSelfCas(s, m);
    assert PcOk(s, m) && Counters.DepthOk(s, m) && Counters.DecidingOk(s, m);
    NotPendingIsNotParked(s, m);
    Ownership.FrameKeeps(s, t);
    SilentKeepsRest(s, t, m);
  }

  lemma SelfWinsBase(s: State, m: nat)
    requires Base(s) && CallbackIs(s, m, SelfCas) && s.slots[MySlot(s, m)].answer == Pending
    ensures Base(DoSelfCas(s, m))
  {
    var t := DoSelfCas(s, m);
    assert PcOk(s, m);
    var i := MySlot(s, m);
    MySlotIsMine(s, m);
    Structure.MovesKeeps(s, t, m);
    Handshake.BuildsKeepsSlots(s, t, i, m);
    Handshake.BuildsKeepsHand(s, t, i);
  }

  lemma SelfWinsCore(s: State, m: nat)
    requires Core(s) && CallbackIs(s, m, SelfCas) && s.slots[MySlot(s, m)].answer == Pending
    ensures Core(DoSelfCas(s, m))
  {
    var t := DoSelfCas(s, m);
    assert PcOk(s, m);
    var i := MySlot(s, m);
    MySlotIsMine(s, m);
    SelfWinsBase(s, m);
    MySlotIsMine(s, m);
    Tokens.WinKeeps(s, t, MySlot(s, m), ByCallback);
    Lifecycle.CallbackKeeps(s, t, m);
  }

  lemma SelfWins(s: State, m: nat)
    requires Good(s) && CallbackIs(s, m, SelfCas) && s.slots[MySlot(s, m)].answer == Pending
    ensures Good(DoSelfCas(s, m))
  {
    hide Rings.Inv, Claims, Build, Handshake.Slots, Handshake.Watch, Handshake.Hand, Tokens.Inv, Lifecycle.Inv;
    hide Ownership.Inv, Arming.Requests, Arming.Holds, Wakeup.Inv;
    SelfWinsCore(s, m);
    var t := DoSelfCas(s, m);
    assert PcOk(s, m) && Counters.DepthOk(s, m) && Counters.DecidingOk(s, m);
    MySlotIsMine(s, m);
    Ownership.FrameKeeps(s, t);
    SilentKeepsRest(s, t, m);
  }

  lemma SelfSendKeepsBase(s: State, m: nat)
    requires Base(s) && CallbackIs(s, m, SelfSend)
    ensures Base(DoSelfSend(s, m))
  {
    var t := DoSelfSend(s, m);
    assert PcOk(s, m);
    Structure.MovesKeeps(s, t, m);
    Handshake.UntouchedKeeps(s, t);
  }

  lemma SelfSendKeepsCore(s: State, m: nat)
    requires Core(s) && CallbackIs(s, m, SelfSend)
    ensures Core(DoSelfSend(s, m))
  {
    var t := DoSelfSend(s, m);
    assert PcOk(s, m);
    SelfSendKeepsBase(s, m);
    MySlotIsMine(s, m);
    assert Tokens.MsgToken(s, m);
    Tokens.SendKeeps(s, t, m, ByCallback);
    Lifecycle.CallbackKeeps(s, t, m);
  }

  lemma SelfSendKeeps(s: State, m: nat)
    requires Good(s) && CallbackIs(s, m, SelfSend)
    ensures Good(DoSelfSend(s, m))
  {
    hide Rings.Inv, Claims, Build, Handshake.Slots, Handshake.Watch, Handshake.Hand, Tokens.Inv, Lifecycle.Inv;
    SelfSendKeepsCore(s, m);
    var t := DoSelfSend(s, m);
    assert PcOk(s, m) && Counters.DepthOk(s, m) && Counters.DecidingOk(s, m);
    MySlotIsMine(s, m);
    Ownership.FrameKeeps(s, t);
    SilentKeepsRest(s, t, m);
  }

  lemma PubStoreKeepsBase(s: State, m: nat)
    requires Base(s) && CallbackIs(s, m, PubStore)
    ensures Base(DoPubStore(s, m))
  {
    var t := DoPubStore(s, m);
    assert PcOk(s, m);
    var i := MySlot(s, m);
    MySlotIsMine(s, m);
    PublishKeepsInv(s, m);
    Rings.PublishKeeps(s.queue, i);
    Handshake.BuildsKeepsSlots(s, t, i, m);
    Handshake.BuildsKeepsHand(s, t, i);
  }

  lemma PubStoreKeepsCore(s: State, m: nat)
    requires Core(s) && CallbackIs(s, m, PubStore)
    ensures Core(DoPubStore(s, m))
  {
    var t := DoPubStore(s, m);
    assert PcOk(s, m);
    var i := MySlot(s, m);
    MySlotIsMine(s, m);
    PubStoreKeepsBase(s, m);
    Tokens.FrameKeeps(s, t);
    Lifecycle.CallbackKeeps(s, t, m);
  }

  lemma PubStoreKeeps(s: State, m: nat)
    requires Good(s) && CallbackIs(s, m, PubStore)
    ensures Good(DoPubStore(s, m))
  {
    hide Rings.Inv, Claims, Build, Handshake.Slots, Handshake.Watch, Handshake.Hand, Tokens.Inv, Lifecycle.Inv;
    PubStoreKeepsCore(s, m);
    var t := DoPubStore(s, m);
    assert PcOk(s, m) && Counters.DepthOk(s, m) && Counters.DecidingOk(s, m);
    Ownership.PublishKeeps(s, m);
    SilentKeepsRest(s, t, m);
  }

  // -------------------------------------------------------------- notifying and leaving

  lemma NotifyKeepsCore(s: State, m: nat)
    requires Core(s) && CallbackIs(s, m, NotifyCas)
    ensures Core(DoNotifyCas(s, m))
  {
    var t := DoNotifyCas(s, m);
    assert PcOk(s, m);
    Structure.MovesKeeps(s, t, m);
    Handshake.UntouchedKeeps(s, t);
    Tokens.FrameKeeps(s, t);
    Lifecycle.CallbackKeeps(s, t, m);
  }

  lemma NotifyKeepsWakeup(s: State, m: nat)
    requires Wakeup.Inv(s) && CallbackIs(s, m, NotifyCas)
    ensures Wakeup.Inv(DoNotifyCas(s, m))
  {
    var t := DoNotifyCas(s, m);
    Wakeup.StillWriting(s, t, m);
    assert !s.notified ==> t.pcs[m] == NotifyWrite;
    Wakeup.RaisedKeeps(s, t);
  }

  lemma NotifyKeeps(s: State, m: nat)
    requires Good(s) && CallbackIs(s, m, NotifyCas)
    ensures Good(DoNotifyCas(s, m))
  {
    hide Rings.Inv, Claims, Build, Handshake.Slots, Handshake.Watch, Handshake.Hand, Tokens.Inv, Lifecycle.Inv;
    hide Wakeup.Inv;
    NotifyKeepsCore(s, m);
    var t := DoNotifyCas(s, m);
    assert PcOk(s, m) && Counters.DepthOk(s, m) && Counters.DecidingOk(s, m);
    NotifyKeepsWakeup(s, m);
    Ownership.FrameKeeps(s, t);
    Arming.CallbackKeepsRequests(s, t, m);
    Arming.CallbackKeepsHolds(s, t, m);
    Counters.CallbackKeeps(s, t, m);
  }

  lemma NotifyWriteKeepsCore(s: State, m: nat)
    requires Core(s) && CallbackIs(s, m, NotifyWrite)
    ensures Core(DoNotifyWrite(s, m))
  {
    var t := DoNotifyWrite(s, m);
    assert PcOk(s, m);
    Structure.MovesKeeps(s, t, m);
    Handshake.UntouchedKeeps(s, t);
    Tokens.FrameKeeps(s, t);
    Lifecycle.CallbackKeeps(s, t, m);
  }

  lemma NotifyWriteKeeps(s: State, m: nat)
    requires Good(s) && CallbackIs(s, m, NotifyWrite)
    ensures Good(DoNotifyWrite(s, m))
  {
    hide Rings.Inv, Claims, Build, Handshake.Slots, Handshake.Watch, Handshake.Hand, Tokens.Inv, Lifecycle.Inv;
    NotifyWriteKeepsCore(s, m);
    var t := DoNotifyWrite(s, m);
    assert PcOk(s, m) && Counters.DepthOk(s, m) && Counters.DecidingOk(s, m);
    Ownership.FrameKeeps(s, t);
    Arming.CallbackKeepsRequests(s, t, m);
    Arming.CallbackKeepsHolds(s, t, m);
    Wakeup.WriteKeeps(s, t);
    Counters.CallbackKeeps(s, t, m);
  }

  lemma LeaveKeepsCore(s: State, m: nat)
    requires Core(s) && CallbackIs(s, m, Leave)
    ensures Core(DoLeave(s, m))
  {
    var t := DoLeave(s, m);
    assert PcOk(s, m);
    Structure.MovesKeeps(s, t, m);
    Handshake.UntouchedKeeps(s, t);
    Tokens.FrameKeeps(s, t);
    Lifecycle.LeaveKeeps(s, m);
  }

  lemma LeaveKeeps(s: State, m: nat)
    requires Good(s) && CallbackIs(s, m, Leave)
    ensures Good(DoLeave(s, m))
  {
    hide Rings.Inv, Claims, Build, Handshake.Slots, Handshake.Watch, Handshake.Hand, Tokens.Inv, Lifecycle.Inv;
    LeaveKeepsCore(s, m);
    var t := DoLeave(s, m);
    assert PcOk(s, m) && Counters.DepthOk(s, m) && Counters.DecidingOk(s, m);
    Ownership.FrameKeeps(s, t);
    SilentKeepsRest(s, t, m);
  }
}
