/** The first state satisfies the invariant, every step of every actor keeps it,
    and so every state of every run satisfies it.

    The lemmas here only dispatch: by actor, then by the actor's program point,
    and then by what the step finds, to the lemmas of CallbackSteps, WatchdogSteps
    and RubySteps.  The steps of the environment, a message that arrives and the
    clock that advances, have theirs here.  A run is a sequence of states that
    begins in an initial one; each further state follows from the one before by
    one enabled step. */
module Runs {
  import opened Rings
  import opened Words
  import opened Protocol
  import opened Structure
  import Handshake
  import Tokens
  import Lifecycle
  import Ownership
  import Arming
  import Wakeup
  import Counters
  import opened Steps
  import Effects
  import C = CallbackSteps
  import W = WatchdogSteps
  import R = RubySteps

  // -------------------------------------------------------------- the first state

  lemma InitCore(s: State)
    requires Init(s)
    ensures Core(s)
  {
    Structure.InitInv(s);
    forall m: nat ensures Lifecycle.InsideOk(s, m) {}
  }

  lemma InitGood(s: State)
    requires Init(s)
    ensures Good(s)
  {
    InitCore(s);
    assert Arming.Requests(s) && Arming.Holds(s) && Ownership.Inv(s);
    assert forall m: nat :: Counters.DecidingOk(s, m);
  }

  // -------------------------------------------------------------- dispatch

  lemma CallbackNext(s: State, m: nat, spurious: bool)
    requires Good(s) && CallbackReady(s, m)
    ensures Good(CallbackStep(s, m, spurious))
  {
    hide Core, Rest;
    hide DoCheck, DoRefuse, DoRetain, DoEnqLoad, DoEnqRead, DoEnqCas, DoFull, DoFullCount, DoFullRelease, DoFill;
    hide DoSetAnswer, DoSetOccupied, DoArmLoad, DoArmRead, DoArmCas, DoArmFill, DoArmPublish, DoSelfCas, DoSelfSend;
    hide DoPubLoad, DoPubMax, DoPubCas, DoPubStore, DoNotifyCas, DoNotifyWrite, DoLeave;
    match s.pcs[m]
    case Check => if s.closed { C.CheckRefuses(s, m); } else { C.CheckPasses(s, m); }
    case Refuse => C.RefuseKeeps(s, m);
    case Retain => C.RetainKeeps(s, m);
    case EnqLoad => C.EnqLoadKeeps(s, m);
    case EnqRead(pos) =>
      var sequence := s.queue.cells[At(pos, Cap(s))].sequence;
      if sequence == pos { C.EnqSeesFree(s, m); }
      else if sequence < pos { C.RingFullKeeps(s, m); }
      else { C.EnqSeesStale(s, m); }
    case EnqCas(pos) =>
      if s.queue.enq == pos && !spurious { C.EnqClaims(s, m); } else { C.EnqRetryKeeps(s, m, spurious); }
    case Full => C.FullKeeps(s, m);
    case FullCount => C.FullCountKeeps(s, m);
    case FullRelease => C.FullReleaseKeeps(s, m);
    case Fill => C.FillKeeps(s, m);
    case SetAnswer => C.SetAnswerKeeps(s, m);
    case SetOccupied => C.SetOccupiedKeeps(s, m);
    case ArmLoad => C.ArmLoadKeeps(s, m);
    case ArmRead(at) =>
      var sequence := s.requests.cells[At(at, Cap(s))].sequence;
      if sequence == at { C.ArmSeesFree(s, m); }
      else if sequence < at { C.ArmSeesFull(s, m); }
      else { C.ArmSeesStale(s, m); }
    case ArmCas(at) =>
      if s.requests.enq == at && !spurious { C.ArmClaims(s, m); } else { C.ArmRetryKeeps(s, m, spurious); }
    case ArmFill(_) => C.ArmFillKeeps(s, m);
    case ArmPublish(_) => C.ArmPublishKeeps(s, m);
    case SelfCas =>
      if s.slots[MySlot(s, m)].answer == Pending { C.SelfWins(s, m); } else { C.SelfLoseKeeps(s, m); }
    case SelfSend => C.SelfSendKeeps(s, m);
    case PubLoad => C.PubLoadKeeps(s, m);
    case PubMax(_) => C.PubMaxKeeps(s, m);
    case PubCas(depth, maximum) =>
      if depth > maximum && !(s.depthMax == maximum && !spurious) { C.PubCasRetries(s, m, spurious); }
      else if depth > maximum { C.PubCasRaises(s, m); }
      else { C.PubCasEnds(s, m, spurious); }
    case PubStore => C.PubStoreKeeps(s, m);
    case NotifyCas => C.NotifyKeeps(s, m);
    case NotifyWrite => C.NotifyWriteKeeps(s, m);
    case Leave => C.LeaveKeeps(s, m);
  }

  lemma WatchdogNext(s: State, k: nat)
    requires Good(s) && WatchdogReady(s, k)
    ensures Good(WatchdogStep(s, k))
  {
    hide Core, Rest;
    match s.wd
    case Top => W.TopKeeps(s);
    case PopRead => W.PopReadKeeps(s);
    case PopTake => W.PopTakeKeeps(s);
    case PopFree(_) => W.PopFreeKeeps(s);
    case HeapSet(_) => W.HeapSetKeeps(s);
    case Scan(now) =>
      if s.heap != map[] && s.heap[k].fireAt <= now { W.ScanTakeKeeps(s, k); } else { W.ScanEndKeeps(s, k); }
    case Exit => W.ExitKeeps(s);
    case AwaitDelete => W.AwaitDeleteKeeps(s);
    case Gone =>
    case Clock => W.ClockKeeps(s);
    case Sleep => W.SleepKeeps(s);
    case Delete => W.DeleteKeeps(s);
    case _ => DueNext(s, k);
  }

  lemma DueNext(s: State, k: nat)
    requires Good(s) && WatchdogReady(s, k) && InDue(s.wd)
    ensures Good(WatchdogStep(s, k))
  {
    hide Core, Rest;
    var i := s.wd.entry.slot;
    if W.Misses(s) {
      W.MissKeeps(s, WatchdogStep(s, k));
    } else {
      match s.wd
      case Due(_) => W.DueKeeps(s);
      case Enter(_) => W.EnterKeeps(s);
      case Recheck(_) => W.RecheckKeeps(s);
      case Compare(_) => W.CompareKeeps(s);
      case Decide(_) => W.DecideWins(s);
      case Send(_) => W.SendKeeps(s);
      case CountTimeout(_) => W.CountTimeoutKeeps(s);
      case TimeoutNotify(_) => W.TimeoutNotifyKeeps(s);
      case TimeoutWrite(_) => W.TimeoutWriteKeeps(s);
      case Unread(_) => W.UnreadKeeps(s);
      case _ =>
    }
  }

  lemma RubyNext(s: State, spurious: bool)
    requires Good(s) && RubyReady(s)
    ensures Good(RubyStep(s, spurious))
  {
    hide Core, Rest;
    hide DoDrainEmpty, DoMakeArray, DoDeqLoad, DoDeqRead, DoDeqCas, DoWrap, DoCountDelivered, DoClear, DoDepthEnq;
    hide DoDepthDeq, DoRubyNotify, DoRubyWrite, DoCloseSwap, DoCloseSpin, DoCloseStop, DoCloseAwait, DoSweepRead;
    hide DoDeleteReady, DoJoin, DoRespondCheck, DoAnswerCas, DoAnswerSend, DoDisarmStore, DoDisarmSpin;
    hide DoReleaseMessage, DoStoreSequence, DoInvalidate;
    match s.ruby
    case DrainEmpty(_) => R.EmptyingKeeps(s);
    case MakeArray(n) => if spurious || !IsArraySize(n) { R.RaisingKeeps(s, spurious); } else { R.DrainGoesOn(s); }
    case DeqLoad(_) => R.DeqLoadKeeps(s);
    case DeqRead(mode, pos) =>
      var sequence := s.queue.cells[At(pos, Cap(s))].sequence;
      if sequence == pos + 1 { R.DeqSeesPublished(s); }
      else if sequence > pos + 1 { R.DeqSeesStale(s); }
      else if mode.Draining? { R.DrainSeesEmpty(s); }
      else { R.CloseSeesEmpty(s); }
    case DeqCas(_, pos) =>
      if s.queue.deq == pos && !spurious { R.DeqTakes(s); } else { R.DeqRetryKeeps(s, spurious); }
    case Wrap(_, _) => R.WrapKeeps(s);
    case CountDelivered(_) => R.CountDeliveredKeeps(s);
    case Clear => R.ClearKeeps(s);
    case DepthEnq => R.DepthEnqKeeps(s);
    case DepthDeq(_) => R.DepthDeqKeeps(s);
    case RubyNotify(_) => R.NotifyKeeps(s);
    case RubyWrite => R.WriteKeeps(s);
    case RespondCheck(_, _) => if s.closed { R.RespondClosedKeeps(s); } else { R.RespondOpenKeeps(s); }
    case AnswerCas(i, _) => if s.slots[i].answer == Pending { R.AnswerWonKeeps(s); } else { R.AnswerLostKeeps(s); }
    case AnswerSend(_, _) => R.AnswerSendKeeps(s);
    case DisarmStore(_, _, _) => R.DisarmStoreKeeps(s);
    case DisarmSpin(i, _, _) => if s.slots[i].readers == 0 { R.DisarmSpinKeeps(s); } else { R.DisarmSpinStays(s); }
    case ReleaseMessage(_, _) => R.ReleaseMessageKeeps(s);
    case StoreSequence(_, _) => R.StoreSequenceKeeps(s);
    case Invalidate(_, _) => R.InvalidateKeeps(s);
    case CloseSwap => R.CloseSwapKeeps(s);
    case CloseSpin => R.CloseSpinKeeps(s);
    case CloseStop => R.CloseStopKeeps(s);
    case CloseAwait => R.CloseAwaitKeeps(s);
    case SweepRead(i) =>
      if i >= Cap(s) { R.SweepEndKeeps(s); }
      else if s.slots[i].occupied { R.SweepFindsKeeps(s); }
      else { R.SweepSkipKeeps(s); }
    case DeleteReady => R.DeleteReadyKeeps(s);
    case Join => R.JoinKeeps(s);
  }

  // -------------------------------------------------------------- environment

  lemma DeliverKeeps(s: State, auth: bool, deadline: nat)
    requires Good(s)
    ensures Good(Arrive(s, auth, deadline))
  {
    var t := Arrive(s, auth, deadline);
    Structure.ArriveKeeps(s, auth, deadline);
    Handshake.UntouchedKeeps(s, t);
    Tokens.ArriveKeeps(s, auth, deadline);
    Lifecycle.ArriveKeeps(s, auth, deadline);
    DeliverKeepsRest(s, auth, deadline);
  }

  lemma DeliverKeepsRest(s: State, auth: bool, deadline: nat)
    requires Good(s)
    ensures Rest(Arrive(s, auth, deadline))
  {
    var t := Arrive(s, auth, deadline);
    Ownership.ArriveKeeps(s, auth, deadline);
    Arming.ArriveKeeps(s, auth, deadline);
    Wakeup.FrameKeeps(s, t);
    Counters.ArriveKeeps(s, auth, deadline);
  }

  lemma TickKeeps(s: State, now: nat)
    requires Good(s) && s.clock <= now
    ensures Good(s.(clock := now))
  {
    var t := s.(clock := now);
    Structure.UntouchedKeeps(s, t);
    Handshake.UntouchedKeeps(s, t);
    Tokens.FrameKeeps(s, t);
    Lifecycle.UntouchedKeeps(s, t);
    TickKeepsRest(s, t);
  }

  lemma TickKeepsRest(s: State, t: State)
    requires Good(s) && t == s.(clock := t.clock) && s.clock <= t.clock
    ensures Rest(t)
  {
    Ownership.FrameKeeps(s, t);
    Arming.UntouchedKeeps(s, t);
    Wakeup.FrameKeeps(s, t);
    Counters.OtherKeeps(s, t);
  }

  // -------------------------------------------------------------- effects

  lemma CallbackKnows(s: State, m: nat)
    requires Good(s) && CallbackReady(s, m)
    ensures Effects.OwnPositions(s, m)
  {
    assert PcOk(s, m);
    if s.pcs[m].EnqRead? { EnqueueRead(s.queue, s.pcs[m].pos); }
    if s.pcs[m].ArmRead? { EnqueueRead(s.requests, s.pcs[m].at); }
  }

  lemma CallbackEffectOf(s: State, m: nat, spurious: bool)
    requires Good(s) && CallbackReady(s, m)
    ensures Effects.CallbackEffect(s, CallbackStep(s, m, spurious), m, spurious)
  {
    hide Good;
    CallbackKnows(s, m);
    Effects.CallbackStepEffect(s, m, spurious);
  }

  lemma RubyKnows(s: State)
    requires Good(s) && RubyReady(s)
    ensures Effects.Knows(s)
  {
    if s.ruby.DeqRead? { DequeueRead(s.queue, s.ruby.pos); }
    if s.ruby.Wrap? {
      assert Handshake.SlotOk(s, s.ruby.slot) && ClaimedOk(s, s.ruby.slot);
      assert Handshake.InHand(s.ruby, s.ruby.slot);
    }
  }

  lemma RubyEffectOf(s: State, fails: bool)
    requires Good(s) && RubyReady(s)
    ensures Effects.RubyEffect(s, RubyStep(s, fails), fails)
  {
    hide Good;
    RubyKnows(s);
    Effects.RubyStepEffect(s, fails);
  }

  // -------------------------------------------------------------- runs

  /** Every step of every actor keeps the invariant. */
  lemma NextKeeps(s: State, a: Action)
    requires Good(s) && Enabled(s, a)
    ensures Good(Next(s, a))
  {
    hide Core, Rest, CallbackStep, WatchdogStep, RubyStep, Begin, Collect, Arrive;
    match a
    case Deliver(auth, deadline) => DeliverKeeps(s, auth, deadline);
    case CallbackActs(m, spurious) => CallbackNext(s, m, spurious);
    case WatchdogActs(k) => WatchdogNext(s, k);
    case RubyActs(spurious) => RubyNext(s, spurious);
    case RubyCalls(c) => R.CallKeeps(s, c);
    case Collects(w) => R.CollectKeeps(s, w);
    case Tick(now) => TickKeeps(s, now);
  }

  lemma StepKeeps(s: State, a: Action, t: State)
    requires Good(s) && Follows(s, a, t)
    ensures Good(t)
  {
    hide Good, Next, Enabled;
    NextKeeps(s, a);
  }

  /** Every state of every run satisfies the invariant. */
  lemma {:induction false} RunKeeps(run: seq<State>, acts: seq<Action>, i: nat)
    requires IsRun(run, acts) && i <= |acts|
    ensures Good(run[i])
    decreases i
  {
    hide Good, Follows, Init;
    assert RunsAt(run, acts, i);
    if i == 0 {
      InitGood(run[0]);
    } else {
      RunKeeps(run, acts, i - 1);
      StepKeeps(run[i - 1], acts[i - 1], run[i]);
    }
  }

  /** Every reachable state satisfies the invariant. */
  lemma ReachableIsGood(t: State)
    requires Reachable(t)
    ensures Good(t)
  {
    hide Good, RunsAt;
    var run, acts :| IsRun(run, acts) && run[|acts|] == t;
    RunKeeps(run, acts, |acts|);
  }

  /** Reachable states are those that runs lead to: the initial ones, and with
      a state all that can follow it. */
  lemma InitIsReachable(s: State)
    requires Init(s)
    ensures Reachable(s)
  {
    hide Init, Follows;
    var acts: seq<Action> := [];
    assert IsRun([s], acts) && [s][|acts|] == s;
  }

  lemma FollowsIsReachable(s: State, a: Action, t: State)
    requires Reachable(s) && Follows(s, a, t)
    ensures Reachable(t)
  {
    hide Init, Follows;
    var run, acts :| IsRun(run, acts) && run[|acts|] == s;
    var longer, more := run + [t], acts + [a];
    forall i: nat | i < |longer| ensures RunsAt(longer, more, i) {
      assert i < |run| ==> RunsAt(run, acts, i);
    }
    assert IsRun(longer, more) && longer[|more|] == t;
  }

  /** There is an initial state for every capacity and configuration that
      client_initialize accepts. */
  lemma SomeStart(capacity: nat, cfg: Config) returns (s: State)
    requires 2 <= capacity && 0.0 <= cfg.margin <= 1.0
    ensures Init(s) && Cap(s) == capacity && s.cfg == cfg
  {
    s := State(
      cfg,
      Rings.Start(capacity), seq(capacity, _ => Slot(false, 0, 0, 0, NotAuth, 0)), 0,
      Rings.Start(capacity), seq(capacity, _ => Entry(0, 0, 0)), map[], Top,
      true, false, false,
      false, 0, false, 0,
      0, 0, 0, 0,
      Idle, map[],
      [], [], [],
      [], [],
      [], [], [], [], [],
      [], [], seq(capacity, _ => Blank), [],
      {}, {}, 0, 0, 0, 0, false, false);
  }
}
