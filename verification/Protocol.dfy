/** The delivery core as a state machine: one step per atomic operation.

    Actors: any number of Endpoint Security callbacks (handle_message, one per
    message), one watchdog thread, and one Ruby actor (the GVL keeps Ruby
    operations apart from each other, but not from the other actors).

    Each callback is named by the message it delivers, so a message and its
    callback share one number.  Slots are named by their index in the ring. */
module Protocol {
  import opened Rings
  import opened Words

  // ------------------------------------------------------------------- types

  datatype Answer = Pending | Answered | NotAuth

  /** esrb_slot_t without its sequence number, which lives in the ring's cell.
      `message` and `client` are always written together; the message stands for both. */
  datatype Slot = Slot(occupied: bool, message: nat, position: nat, fireAt: nat, answer: Answer, readers: nat)

  /** esrb_watchdog_request_t and esrb_watchdog_entry_t. */
  datatype Entry = Entry(slot: nat, position: nat, fireAt: nat)

  /** esrb_message_t: a Ruby wrapper around a dequeued slot. */
  datatype Wrapper = Wrapper(slot: nat, valid: bool, held: bool)

  /** Where a callback stands in handle_message and the functions it calls. */
  datatype CallbackPc =
    | Check
    | Refuse
    | Retain
    | EnqLoad
    | EnqRead(pos: nat)
    | EnqCas(pos: nat)
    | Full
    | FullCount
    | FullRelease
    | Fill
    | SetAnswer
    | SetOccupied
    | ArmLoad
    | ArmRead(at: nat)
    | ArmCas(at: nat)
    | ArmFill(at: nat)
    | ArmPublish(at: nat)
    | SelfCas
    | SelfSend
    | PubLoad
    | PubMax(depth: int)
    | PubCas(depth: int, maximum: int)
    | PubStore
    | NotifyCas
    | NotifyWrite
    | Leave
    | Done

  /** Where the watchdog thread stands in client_native_main, esrb_watchdog_main and answer_due. */
  datatype WatchdogPc =
    | Top
    | PopRead
    | PopTake
    | PopFree(at: nat)
    | HeapSet(entry: Entry)
    | Clock
    | Scan(now: nat)
    | Due(entry: Entry)
    | Enter(entry: Entry)
    | Recheck(entry: Entry)
    | Compare(entry: Entry)
    | Decide(entry: Entry)
    | Send(entry: Entry)
    | CountTimeout(entry: Entry)
    | TimeoutNotify(entry: Entry)
    | TimeoutWrite(entry: Entry)
    | Unread(entry: Entry)
    | Sleep
    | Exit
    | AwaitDelete
    | Delete
    | Gone

  /** Why Ruby is answering a slot, and hence what it does next.  A release goes on
      at `back`: nowhere, or in the drain whose allocation has run the finaliser. */
  datatype Job = Respond(w: nat) | Release(w: nat, back: RubyPc) | Sweep | Discard

  datatype Mode = Draining(left: nat) | Closing

  /** Where the Ruby actor stands in client_drain, esrb_respond_slot,
      message_release and client_close_native. */
  datatype RubyPc =
    | Idle
    | DrainEmpty(maximum: int)
    | MakeArray(maximum: int)
    | DeqLoad(mode: Mode)
    | DeqRead(mode: Mode, pos: nat)
    | DeqCas(mode: Mode, pos: nat)
    | Wrap(left: nat, slot: nat)
    | CountDelivered(left: nat)
    | Clear
    | DepthEnq
    | DepthDeq(enqueued: nat)
    | RubyNotify(fromDrain: bool)
    | RubyWrite
    | RespondCheck(slot: nat, job: Job)
    | AnswerCas(slot: nat, job: Job)
    | AnswerSend(slot: nat, job: Job)
    | DisarmStore(slot: nat, job: Job, again: bool)
    | DisarmSpin(slot: nat, job: Job, again: bool)
    | ReleaseMessage(slot: nat, job: Job)
    | StoreSequence(slot: nat, job: Job)
    | Invalidate(w: nat, back: RubyPc)
    | CloseSwap
    | CloseSpin
    | CloseStop
    | CloseAwait
    | SweepRead(slot: nat)
    | DeleteReady
    | Join

  // History: what became of a message.  `Accepted(pos)` also stands for the callback's
  // local variables `position` and `slot`.

  datatype Fate = Undecided | Refused | Dropped | Accepted(pos: nat)

  datatype Actor = ByCallback | ByWatchdog | ByRuby

  /** The right to answer an AUTH message: still with its callback, parked in
      the slot's answer word, in the hand of the actor that won the word, or used. */
  datatype Token = NoToken | Fresh | InSlot | InHand(actor: Actor) | Spent

  /** Who must call es_release_message. */
  datatype Owner = NotRetained | OwnCallback | OwnQueue | OwnRuby | Nobody

  /** How far a claimed slot has been prepared. */
  datatype Stage = Blank | Filled | Set | Live

  datatype Arm = NotArmed | ArmedAt(at: nat)

  datatype Config = Config(margin: real, minMargin: nat)

  datatype State = State(
    // Configuration
    cfg: Config,
    // Slot queue
    queue: Ring, slots: seq<Slot>, depthMax: int,
    // Watchdog
    requests: Ring, reqs: seq<Entry>, heap: map<nat, Entry>, wd: WatchdogPc,
    running: bool, stopped: bool, deleteReady: bool,
    // Client
    closed: bool, active: int, notified: bool, pipe: nat,
    dropped: nat, delivered: nat, timeouts: nat, clock: nat,
    // Ruby
    ruby: RubyPc, wrappers: map<nat, Wrapper>,
    // Callbacks, one per message
    pcs: seq<CallbackPc>, auth: seq<bool>, deadlines: seq<nat>,
    // The environment's record: calls of esrb_send_response and es_release_message
    responses: seq<nat>, releases: seq<nat>,
    // History
    fates: seq<Fate>, tokens: seq<Token>, owners: seq<Owner>, fires: seq<nat>, armed: seq<Arm>,
    claims: seq<nat>, arms: seq<nat>, stages: seq<Stage>, taken: seq<nat>,
    inside: set<nat>, deciding: set<nat>, passed: nat, discarded: nat, wins: nat, topDepth: int,
    finished: bool, broken: bool)

  /** deadline_fire_time: `cfg.margin` is the fraction of the remaining time kept for the fallback. */
  function FireTime(cfg: Config, now: nat, deadline: nat): nat {
    if deadline <= now then now
    else
      var remaining := deadline - now;
      var scaled := if cfg.margin == 1.0 then remaining else (remaining as real * cfg.margin).Floor;
      var advance := if scaled < cfg.minMargin then cfg.minMargin else scaled;
      if advance >= remaining then now else deadline - advance
  }

  // ------------------------------------------------------------------ helpers

  function Bump(xs: seq<nat>, i: nat): (ys: seq<nat>)
    ensures |ys| == |xs|
  {
    if i < |xs| then xs[i := xs[i] + 1] else xs
  }

  function Put<T>(xs: seq<T>, i: nat, x: T): (ys: seq<T>)
    ensures |ys| == |xs|
  {
    if i < |xs| then xs[i := x] else xs
  }

  predicate Shape(s: State) {
    && 2 <= s.queue.cap == |s.queue.cells| == |s.slots| == |s.stages|
    && s.requests.cap == s.queue.cap == |s.requests.cells| == |s.reqs|
    && |s.pcs| == |s.auth| == |s.deadlines| == |s.responses| == |s.releases|
    && |s.pcs| == |s.fates| == |s.tokens| == |s.owners| == |s.fires| == |s.armed|
  }

  function Cap(s: State): nat { s.queue.cap }

  function Count(s: State): nat { |s.pcs| }

  /** The slot a callback works on: `slots[position & mask]`. */
  function MySlot(s: State, m: nat): (i: nat)
    requires Shape(s) && m < Count(s) && s.fates[m].Accepted?
    ensures i < Cap(s)
  {
    At(s.fates[m].pos, Cap(s))
  }

  function SetSlot(s: State, i: nat, x: Slot): State
    requires i < |s.slots|
  {
    s.(slots := s.slots[i := x])
  }

  function Goto(s: State, m: nat, pc: CallbackPc): State
    requires m < |s.pcs|
  {
    s.(pcs := s.pcs[m := pc])
  }

  /** esrb_send_response for a message: whatever code it returns, it is one call. */
  function SendResponse(s: State, m: nat): State {
    s.(responses := Bump(s.responses, m), tokens := Put(s.tokens, m, Spent))
  }

  /** The default response of a callback that gets no slot, if its message wants one. */
  function SendIfAuth(s: State, m: nat): State
    requires m < |s.auth|
  {
    s.(responses := if s.auth[m] then Bump(s.responses, m) else s.responses,
       tokens := if s.auth[m] then Put(s.tokens, m, Spent) else s.tokens)
  }

  /** The answer word's compare-and-swap from pending to answered. */
  function WinAnswer(s: State, i: nat, actor: Actor): State
    requires i < |s.slots|
  {
    SetSlot(s, i, s.slots[i].(answer := Answered)).(tokens := Put(s.tokens, s.slots[i].message, InHand(actor)))
  }

  // ------------------------------------------------------------------ initial

  ghost predicate Init(s: State) {
    && 2 <= s.queue.cap
    && s.queue == Rings.Start(s.queue.cap)
    && s.requests == Rings.Start(s.queue.cap)
    && s.slots == seq(s.queue.cap, _ => Slot(false, 0, 0, 0, NotAuth, 0))
    && s.stages == seq(s.queue.cap, _ => Blank)
    && |s.reqs| == s.queue.cap
    && s.depthMax == 0 && s.heap == map[] && s.wd == Top
    && s.running && !s.stopped && !s.deleteReady && !s.closed
    && s.active == 0 && !s.notified && s.pipe == 0
    && s.dropped == 0 && s.delivered == 0 && s.timeouts == 0
    && s.ruby == Idle && s.wrappers == map[]
    && s.pcs == [] && s.auth == [] && s.deadlines == [] && s.responses == [] && s.releases == []
    && s.fates == [] && s.tokens == [] && s.owners == [] && s.fires == [] && s.armed == []
    && s.claims == [] && s.arms == [] && s.taken == []
    && s.inside == {} && s.deciding == {} && s.passed == 0 && s.discarded == 0 && s.wins == 0 && s.topDepth == 0
    && !s.finished && !s.broken
    && 0.0 <= s.cfg.margin <= 1.0
  }

  // ---------------------------------------------------------------- callbacks

  /** A new message: its callback raises `active_callbacks`. */
  function Arrive(s: State, auth: bool, deadline: nat): State {
    s.(pcs := s.pcs + [Check], auth := s.auth + [auth], deadlines := s.deadlines + [deadline],
       responses := s.responses + [0], releases := s.releases + [0],
       fates := s.fates + [Undecided], tokens := s.tokens + [if auth then Fresh else NoToken],
       owners := s.owners + [NotRetained], fires := s.fires + [0], armed := s.armed + [NotArmed],
       active := s.active + 1, inside := s.inside + {|s.pcs|})
  }

  predicate CallbackAt(s: State, m: nat) { Shape(s) && m < Count(s) }

  function DoCheck(s: State, m: nat): State
    requires CallbackAt(s, m)
  {
    if s.closed then Goto(s, m, Refuse).(fates := s.fates[m := Refused])
    else Goto(s, m, Retain).(deciding := s.deciding + {m}, passed := s.passed + 1)
  }

  function DoRefuse(s: State, m: nat): State
    requires CallbackAt(s, m)
  {
    Goto(SendIfAuth(s, m), m, Leave)
  }

  function DoRetain(s: State, m: nat): State
    requires CallbackAt(s, m)
  {
    Goto(s, m, EnqLoad).(owners := s.owners[m := OwnCallback])
  }

  function DoEnqLoad(s: State, m: nat): State
    requires CallbackAt(s, m)
  {
    Goto(s, m, EnqRead(s.queue.enq))
  }

  function DoEnqRead(s: State, m: nat): State
    requires CallbackAt(s, m) && s.pcs[m].EnqRead?
  {
    var pos := s.pcs[m].pos;
    var sequence := s.queue.cells[At(pos, Cap(s))].sequence;
    Goto(s, m, if sequence == pos then EnqCas(pos) else if sequence < pos then Full else EnqLoad).(
      fates := if sequence < pos then s.fates[m := Dropped] else s.fates)
  }

  /** The weak CAS may fail spuriously; a failure reloads the position. */
  function DoEnqCas(s: State, m: nat, spurious: bool): State
    requires CallbackAt(s, m) && s.pcs[m].EnqCas?
  {
    var pos := s.pcs[m].pos;
    if s.queue.enq == pos && !spurious
    then
      Goto(s, m, Fill).(
        queue := Claim(s.queue), claims := s.claims + [m], fates := s.fates[m := Accepted(pos)],
        stages := s.stages[At(pos, Cap(s)) := Blank], deciding := s.deciding - {m})
    else Goto(s, m, EnqRead(s.queue.enq))
  }

  function DoFull(s: State, m: nat): State
    requires CallbackAt(s, m)
  {
    Goto(SendIfAuth(s, m), m, FullCount)
  }

  function DoFullCount(s: State, m: nat): State
    requires CallbackAt(s, m)
  {
    Goto(s, m, FullRelease).(dropped := s.dropped + 1, deciding := s.deciding - {m})
  }

  function DoFullRelease(s: State, m: nat): State
    requires CallbackAt(s, m)
  {
    Goto(s, m, Leave).(owners := s.owners[m := Nobody], releases := Bump(s.releases, m))
  }

  /** The plain stores to the claimed slot: position, message, client, fire time. */
  function DoFill(s: State, m: nat): State
    requires CallbackAt(s, m) && s.fates[m].Accepted?
  {
    var i := MySlot(s, m);
    var fire := if s.auth[m] then FireTime(s.cfg, s.clock, s.deadlines[m]) else WORD_MAX;
    Goto(s, m, SetAnswer).(
      slots := s.slots[i := s.slots[i].(position := s.fates[m].pos, message := m, fireAt := fire)],
      fires := s.fires[m := fire], stages := s.stages[i := Filled])
  }

  function DoSetAnswer(s: State, m: nat): State
    requires CallbackAt(s, m) && s.fates[m].Accepted?
  {
    var i := MySlot(s, m);
    Goto(s, m, SetOccupied).(
      slots := s.slots[i := s.slots[i].(answer := if s.auth[m] then Pending else NotAuth)],
      tokens := s.tokens[m := if s.auth[m] then InSlot else NoToken], stages := s.stages[i := Set])
  }

  function DoSetOccupied(s: State, m: nat): State
    requires CallbackAt(s, m) && s.fates[m].Accepted?
  {
    var i := MySlot(s, m);
    Goto(s, m, if s.auth[m] then ArmLoad else PubLoad).(
      slots := s.slots[i := s.slots[i].(occupied := true)], stages := s.stages[i := Live])
  }

  function DoArmLoad(s: State, m: nat): State
    requires CallbackAt(s, m)
  {
    Goto(s, m, ArmRead(s.requests.enq))
  }

  function DoArmRead(s: State, m: nat): State
    requires CallbackAt(s, m) && s.pcs[m].ArmRead?
  {
    var at := s.pcs[m].at;
    var sequence := s.requests.cells[At(at, Cap(s))].sequence;
    Goto(s, m, if sequence == at then ArmCas(at) else if sequence < at then SelfCas else ArmLoad)
  }

  function DoArmCas(s: State, m: nat, spurious: bool): State
    requires CallbackAt(s, m) && s.pcs[m].ArmCas? && s.fates[m].Accepted?
  {
    var at := s.pcs[m].at;
    if s.requests.enq == at && !spurious
    then
      Goto(s, m, ArmFill(at)).(
        requests := Claim(s.requests), arms := s.arms + [s.fates[m].pos], armed := s.armed[m := ArmedAt(at)])
    else Goto(s, m, ArmRead(s.requests.enq))
  }

  function DoArmFill(s: State, m: nat): State
    requires CallbackAt(s, m) && s.pcs[m].ArmFill? && s.fates[m].Accepted?
  {
    var i := MySlot(s, m);
    Goto(s, m, ArmPublish(s.pcs[m].at)).(
      reqs := s.reqs[At(s.pcs[m].at, Cap(s)) := Entry(i, s.slots[i].position, s.slots[i].fireAt)])
  }

  function DoArmPublish(s: State, m: nat): State
    requires CallbackAt(s, m) && s.pcs[m].ArmPublish?
  {
    var at := s.pcs[m].at;
    Goto(s, m, PubLoad).(requests := Publish(s.requests, At(at, Cap(s)), at + 1))
  }

  /** client_answer_slot after a failed arm. */
  function DoSelfCas(s: State, m: nat): State
    requires CallbackAt(s, m) && s.fates[m].Accepted?
  {
    var i := MySlot(s, m);
    if s.slots[i].answer == Pending then Goto(WinAnswer(s, i, ByCallback), m, SelfSend)
    else Goto(s, m, PubLoad)
  }

  function DoSelfSend(s: State, m: nat): State
    requires CallbackAt(s, m) && s.fates[m].Accepted?
  {
    Goto(SendResponse(s, s.slots[MySlot(s, m)].message), m, PubLoad)
  }

  function DoPubLoad(s: State, m: nat): State
    requires CallbackAt(s, m) && s.fates[m].Accepted?
  {
    Goto(s, m, PubMax(s.slots[MySlot(s, m)].position + 1 - s.queue.deq))
  }

  function DoPubMax(s: State, m: nat): State
    requires CallbackAt(s, m) && s.pcs[m].PubMax?
  {
    Goto(s, m, PubCas(s.pcs[m].depth, s.depthMax))
  }

  function DoPubCas(s: State, m: nat, spurious: bool): State
    requires CallbackAt(s, m) && s.pcs[m].PubCas?
  {
    var depth, maximum := s.pcs[m].depth, s.pcs[m].maximum;
    if depth > maximum && !(s.depthMax == maximum && !spurious)
    then Goto(s, m, PubCas(depth, s.depthMax))
    else
      Goto(s, m, PubStore).(
        depthMax := if depth > maximum then depth else s.depthMax,
        topDepth := if depth > s.topDepth then depth else s.topDepth)
  }

  function DoPubStore(s: State, m: nat): State
    requires CallbackAt(s, m) && s.fates[m].Accepted?
  {
    var i := MySlot(s, m);
    Goto(s, m, NotifyCas).(
      queue := Publish(s.queue, i, s.slots[i].position + 1), owners := s.owners[m := OwnQueue])
  }

  function DoNotifyCas(s: State, m: nat): State
    requires CallbackAt(s, m)
  {
    Goto(s, m, if s.notified then Leave else NotifyWrite).(notified := true)
  }

  function DoNotifyWrite(s: State, m: nat): State
    requires CallbackAt(s, m)
  {
    Goto(s, m, Leave).(pipe := s.pipe + 1)
  }

  function DoLeave(s: State, m: nat): State
    requires CallbackAt(s, m)
  {
    Goto(s, m, Done).(active := s.active - 1, inside := s.inside - {m})
  }

  /** What a callback past its claim knows: it has a slot. */
  predicate NeedsSlot(pc: CallbackPc) {
    pc.Fill? || pc.SetAnswer? || pc.SetOccupied? || pc.ArmLoad? || pc.ArmRead? || pc.ArmCas? || pc.ArmFill?
    || pc.ArmPublish? || pc.SelfCas? || pc.SelfSend? || pc.PubLoad? || pc.PubMax? || pc.PubCas? || pc.PubStore?
  }

  predicate CallbackReady(s: State, m: nat) {
    CallbackAt(s, m) && s.pcs[m] != Done && (NeedsSlot(s.pcs[m]) ==> s.fates[m].Accepted?)
  }

  function CallbackStep(s: State, m: nat, spurious: bool): State
    requires CallbackReady(s, m)
  {
    match s.pcs[m]
    case Check => DoCheck(s, m)
    case Refuse => DoRefuse(s, m)
    case Retain => DoRetain(s, m)
    case EnqLoad => DoEnqLoad(s, m)
    case EnqRead(_) => DoEnqRead(s, m)
    case EnqCas(_) => DoEnqCas(s, m, spurious)
    case Full => DoFull(s, m)
    case FullCount => DoFullCount(s, m)
    case FullRelease => DoFullRelease(s, m)
    case Fill => DoFill(s, m)
    case SetAnswer => DoSetAnswer(s, m)
    case SetOccupied => DoSetOccupied(s, m)
    case ArmLoad => DoArmLoad(s, m)
    case ArmRead(_) => DoArmRead(s, m)
    case ArmCas(_) => DoArmCas(s, m, spurious)
    case ArmFill(_) => DoArmFill(s, m)
    case ArmPublish(_) => DoArmPublish(s, m)
    case SelfCas => DoSelfCas(s, m)
    case SelfSend => DoSelfSend(s, m)
    case PubLoad => DoPubLoad(s, m)
    case PubMax(_) => DoPubMax(s, m)
    case PubCas(_, _) => DoPubCas(s, m, spurious)
    case PubStore => DoPubStore(s, m)
    case NotifyCas => DoNotifyCas(s, m)
    case NotifyWrite => DoNotifyWrite(s, m)
    case Leave => DoLeave(s, m)
    case Done => s
  }

  // ----------------------------------------------------------------- watchdog

  predicate WatchdogAt(s: State, e: Entry) { Shape(s) && e.slot < Cap(s) }

  function Wd(s: State, pc: WatchdogPc): State { s.(wd := pc) }

  function DoTop(s: State): State {
    Wd(s, if s.running then PopRead else Exit)
  }

  function DoPopRead(s: State): State
    requires Shape(s)
  {
    var at := s.requests.deq;
    Wd(s, if s.requests.cells[At(at, Cap(s))].sequence == at + 1 then PopTake else Clock)
  }

  function DoPopTake(s: State): State
    requires Shape(s)
  {
    Wd(s, PopFree(s.requests.deq)).(requests := Take(s.requests))
  }

  function DoPopFree(s: State): State
    requires Shape(s) && s.wd.PopFree?
  {
    var i := At(s.wd.at, Cap(s));
    Wd(s, HeapSet(s.reqs[i])).(requests := Return(s.requests, i, s.wd.at + Cap(s)))
  }

  /** heap_set on the heap's abstract content, a map from slots; module DeadlineHeap
      proves that the array heap with back-pointers implements it. */
  function DoHeapSet(s: State): State
    requires s.wd.HeapSet?
  {
    Wd(s, PopRead).(heap := s.heap[s.wd.entry.slot := s.wd.entry])
  }

  function DoClock(s: State): State { Wd(s, Scan(s.clock)) }

  predicate IsRoot(heap: map<nat, Entry>, k: nat) {
    k in heap && forall j :: j in heap ==> heap[k].fireAt <= heap[j].fireAt
  }

  /** One turn of the inner loop: take a due root, or finish the pass. */
  predicate CanScan(s: State, k: nat) {
    s.wd.Scan? && (s.heap != map[] ==> IsRoot(s.heap, k))
  }

  function DoScan(s: State, k: nat): State
    requires CanScan(s, k)
  {
    if s.heap != map[] && s.heap[k].fireAt <= s.wd.now
    then Wd(s, Due(s.heap[k])).(heap := s.heap - {k})
    else Wd(s, Sleep)
  }

  function DoDue(s: State, e: Entry): State
    requires WatchdogAt(s, e)
  {
    Wd(s, if s.slots[e.slot].occupied then Enter(e) else Clock)
  }

  function DoEnter(s: State, e: Entry): State
    requires WatchdogAt(s, e)
  {
    Wd(SetSlot(s, e.slot, s.slots[e.slot].(readers := s.slots[e.slot].readers + 1)), Recheck(e))
  }

  function DoRecheck(s: State, e: Entry): State
    requires WatchdogAt(s, e)
  {
    Wd(s, if s.slots[e.slot].occupied then Compare(e) else Unread(e))
  }

  function DoCompare(s: State, e: Entry): State
    requires WatchdogAt(s, e)
  {
    Wd(s, if s.slots[e.slot].position == e.position then Decide(e) else Unread(e))
  }

  function DoDecide(s: State, e: Entry): State
    requires WatchdogAt(s, e)
  {
    if s.slots[e.slot].answer == Pending
    then Wd(WinAnswer(s, e.slot, ByWatchdog), Send(e)).(wins := s.wins + 1)
    else Wd(s, Unread(e))
  }

  function DoSend(s: State, e: Entry): State
    requires WatchdogAt(s, e)
  {
    Wd(SendResponse(s, s.slots[e.slot].message), CountTimeout(e))
  }

  function DoCountTimeout(s: State, e: Entry): State {
    Wd(s, TimeoutNotify(e)).(timeouts := s.timeouts + 1)
  }

  function DoTimeoutNotify(s: State, e: Entry): State {
    Wd(s, if s.notified then Unread(e) else TimeoutWrite(e)).(notified := true)
  }

  function DoTimeoutWrite(s: State, e: Entry): State {
    Wd(s, Unread(e)).(pipe := s.pipe + 1)
  }

  function DoUnread(s: State, e: Entry): State
    requires WatchdogAt(s, e)
  {
    var n := s.slots[e.slot].readers;
    Wd(SetSlot(s, e.slot, s.slots[e.slot].(readers := if n == 0 then 0 else n - 1)), Clock)
  }

  function DoExit(s: State): State { Wd(s, AwaitDelete).(stopped := true) }

  function DoAwaitDelete(s: State): State { Wd(s, if s.deleteReady then Delete else AwaitDelete) }

  /** The entry the watchdog is answering. */
  predicate InDue(pc: WatchdogPc) {
    pc.Due? || pc.Enter? || pc.Recheck? || pc.Compare? || pc.Decide? || pc.Send? || pc.CountTimeout?
    || pc.TimeoutNotify? || pc.TimeoutWrite? || pc.Unread?
  }

  predicate WatchdogReady(s: State, k: nat) {
    && Shape(s) && s.wd != Gone
    && (InDue(s.wd) ==> s.wd.entry.slot < Cap(s))
    && (s.wd.Scan? ==> CanScan(s, k))
  }

  function WatchdogStep(s: State, k: nat): State
    requires WatchdogReady(s, k)
  {
    match s.wd
    case Top => DoTop(s)
    case PopRead => DoPopRead(s)
    case PopTake => DoPopTake(s)
    case PopFree(_) => DoPopFree(s)
    case HeapSet(_) => DoHeapSet(s)
    case Clock => DoClock(s)
    case Scan(_) => DoScan(s, k)
    case Due(e) => DoDue(s, e)
    case Enter(e) => DoEnter(s, e)
    case Recheck(e) => DoRecheck(s, e)
    case Compare(e) => DoCompare(s, e)
    case Decide(e) => DoDecide(s, e)
    case Send(e) => DoSend(s, e)
    case CountTimeout(e) => DoCountTimeout(s, e)
    case TimeoutNotify(e) => DoTimeoutNotify(s, e)
    case TimeoutWrite(e) => DoTimeoutWrite(s, e)
    case Unread(e) => DoUnread(s, e)
    case Sleep => Wd(s, Top)
    case Exit => DoExit(s)
    case AwaitDelete => DoAwaitDelete(s)
    case Delete => Wd(s, Gone)
    case Gone => s
  }

  // --------------------------------------------------------------------- Ruby

  function Rb(s: State, pc: RubyPc): State { s.(ruby := pc) }

  /** The loop head of client_drain. */
  function NextDrain(left: nat): RubyPc { if left == 0 then Clear else DeqLoad(Draining(left)) }

  /** read() until the pipe is empty, 256 bytes at a time. */
  function DoDrainEmpty(s: State): State
    requires s.ruby.DrainEmpty?
  {
    s.(pipe := if s.pipe <= 256 then 0 else s.pipe - 256, ruby := if s.pipe == 0 then MakeArray(s.ruby.maximum) else s.ruby)
  }

  /** The result array is made, which raises if the maximum is no size for an array,
      or if there is no memory: the drain ends there, with the pipe emptied and
      `notified` as it was.  `broken` records that until a drain gets through again. */
  function DoMakeArray(s: State, fails: bool): State
    requires s.ruby.MakeArray?
  {
    var raises := fails || !IsArraySize(s.ruby.maximum);
    s.(ruby := if raises then Idle else NextDrain(s.ruby.maximum), broken := s.broken || raises)
  }

  function DoDeqLoad(s: State): State
    requires s.ruby.DeqLoad?
  {
    Rb(s, DeqRead(s.ruby.mode, s.queue.deq))
  }

  function DoDeqRead(s: State): State
    requires Shape(s) && s.ruby.DeqRead?
  {
    var pos, mode := s.ruby.pos, s.ruby.mode;
    var sequence := s.queue.cells[At(pos, Cap(s))].sequence;
    Rb(s, if sequence == pos + 1 then DeqCas(mode, pos)
          else if sequence > pos + 1 then DeqLoad(mode)
          else if mode.Draining? then Clear
          else DeleteReady)
  }

  function DoDeqCas(s: State, spurious: bool): State
    requires Shape(s) && s.ruby.DeqCas?
  {
    var pos, mode := s.ruby.pos, s.ruby.mode;
    var i := At(pos, Cap(s));
    if s.queue.deq == pos && !spurious
    then
      var m := s.slots[i].message;
      Rb(s, if mode.Draining? then Wrap(mode.left, i) else AnswerCas(i, Discard)).(
        queue := Take(s.queue), taken := s.taken + [m], owners := Put(s.owners, m, OwnRuby),
        discarded := if mode.Draining? then s.discarded else s.discarded + 1)
    else Rb(s, DeqRead(mode, s.queue.deq))
  }

  /** esrb_message_wrap.  Wrappers are named by the position of their slot. */
  function DoWrap(s: State): State
    requires Shape(s) && s.ruby.Wrap? && s.ruby.slot < Cap(s)
  {
    Rb(s, CountDelivered(s.ruby.left)).(
      wrappers := s.wrappers[s.slots[s.ruby.slot].position := Wrapper(s.ruby.slot, true, false)])
  }

  function DoCountDelivered(s: State): State
    requires s.ruby.CountDelivered?
  {
    Rb(s, NextDrain(if s.ruby.left == 0 then 0 else s.ruby.left - 1)).(delivered := s.delivered + 1)
  }

  function DoClear(s: State): State { Rb(s, DepthEnq).(notified := false, broken := false) }

  function DoDepthEnq(s: State): State { Rb(s, DepthDeq(s.queue.enq)) }

  function DoDepthDeq(s: State): State
    requires s.ruby.DepthDeq?
  {
    Rb(s, if s.ruby.enqueued - s.queue.deq > 0 then RubyNotify(true) else Idle)
  }

  function DoRubyNotify(s: State): State {
    Rb(s, if s.notified then Idle else RubyWrite).(notified := true)
  }

  function DoRubyWrite(s: State): State { Rb(s, Idle).(pipe := s.pipe + 1) }

  /** What follows an answer attempt. */
  function AfterAnswer(i: nat, job: Job): RubyPc {
    match job
    case Respond(_) => Idle
    case Release(_, _) => DisarmStore(i, job, false)
    case Sweep => SweepRead(i + 1)
    case Discard => ReleaseMessage(i, job)
  }

  /** esrb_respond_slot refuses once the client is closed. */
  function DoRespondCheck(s: State): State
    requires s.ruby.RespondCheck?
  {
    Rb(s, if s.closed then AfterAnswer(s.ruby.slot, s.ruby.job) else AnswerCas(s.ruby.slot, s.ruby.job))
  }

  function DoAnswerCas(s: State): State
    requires Shape(s) && s.ruby.AnswerCas? && s.ruby.slot < Cap(s)
  {
    var i, job := s.ruby.slot, s.ruby.job;
    if s.slots[i].answer == Pending then Rb(WinAnswer(s, i, ByRuby), AnswerSend(i, job))
    else Rb(s, AfterAnswer(i, job))
  }

  function DoAnswerSend(s: State): State
    requires Shape(s) && s.ruby.AnswerSend? && s.ruby.slot < Cap(s)
  {
    Rb(SendResponse(s, s.slots[s.ruby.slot].message), AfterAnswer(s.ruby.slot, s.ruby.job))
  }

  function DoDisarmStore(s: State): State
    requires Shape(s) && s.ruby.DisarmStore? && s.ruby.slot < Cap(s)
  {
    var i := s.ruby.slot;
    Rb(SetSlot(s, i, s.slots[i].(occupied := false)), DisarmSpin(i, s.ruby.job, s.ruby.again))
  }

  function DoDisarmSpin(s: State): State
    requires Shape(s) && s.ruby.DisarmSpin? && s.ruby.slot < Cap(s)
  {
    var i := s.ruby.slot;
    Rb(s, if s.slots[i].readers != 0 then s.ruby
          else if s.ruby.again then StoreSequence(i, s.ruby.job)
          else ReleaseMessage(i, s.ruby.job))
  }

  function DoReleaseMessage(s: State): State
    requires Shape(s) && s.ruby.ReleaseMessage? && s.ruby.slot < Cap(s)
  {
    var i := s.ruby.slot;
    var m := s.slots[i].message;
    Rb(s, DisarmStore(i, s.ruby.job, true)).(releases := Bump(s.releases, m), owners := Put(s.owners, m, Nobody))
  }

  function DoStoreSequence(s: State): State
    requires Shape(s) && s.ruby.StoreSequence? && s.ruby.slot < Cap(s)
  {
    var i := s.ruby.slot;
    Rb(s, if s.ruby.job.Release? then Invalidate(s.ruby.job.w, s.ruby.job.back) else DeqLoad(Closing)).(
      queue := Return(s.queue, i, s.slots[i].position + Cap(s)))
  }

  function DoInvalidate(s: State): State
    requires s.ruby.Invalidate? && s.ruby.w in s.wrappers
  {
    var w := s.ruby.w;
    Rb(s, s.ruby.back).(wrappers := s.wrappers[w := s.wrappers[w].(valid := false)])
  }

  function DoCloseSwap(s: State): State {
    Rb(s, if s.closed then Idle else CloseSpin).(closed := true)
  }

  function DoCloseSpin(s: State): State {
    Rb(s, if s.active == 0 then CloseStop else CloseSpin)
  }

  function DoCloseStop(s: State): State { Rb(s, CloseAwait).(running := false) }

  function DoCloseAwait(s: State): State {
    Rb(s, if s.stopped then SweepRead(0) else CloseAwait)
  }

  /** client_answer_occupied. */
  function DoSweepRead(s: State): State
    requires Shape(s) && s.ruby.SweepRead?
  {
    var i := s.ruby.slot;
    Rb(s, if i >= Cap(s) then DeqLoad(Closing)
          else if s.slots[i].occupied then AnswerCas(i, Sweep)
          else SweepRead(i + 1))
  }

  function DoDeleteReady(s: State): State { Rb(s, Join).(deleteReady := true) }

  function DoJoin(s: State): State {
    Rb(s, if s.wd == Gone then RubyNotify(false) else Join).(finished := s.finished || s.wd == Gone)
  }

  datatype Command =
    | CmdDrain(maximum: int)
    | CmdRespond(w: nat)
    | CmdRelease(w: nat)
    | CmdAutoRelease(w: nat)
    | CmdRetain(w: nat)
    | CmdClose
    | CmdWake

  /** Where a Ruby call begins its work, or Idle if it ends at once.  `__drain`
      raises at once if its maximum is no long or the client is closed; on a
      released message respond and retain! raise and release! does nothing. */
  function FirstPoint(s: State, c: Command): RubyPc {
    match c
    case CmdDrain(n) => if s.closed || !IsLong(n) then Idle else DrainEmpty(n)
    case CmdRespond(w) =>
      if w in s.wrappers && s.wrappers[w].valid then RespondCheck(s.wrappers[w].slot, Respond(w)) else Idle
    case CmdRelease(w) =>
      if w in s.wrappers && s.wrappers[w].valid then RespondCheck(s.wrappers[w].slot, Release(w, Idle)) else Idle
    case CmdAutoRelease(w) =>
      if w in s.wrappers && s.wrappers[w].valid && !s.wrappers[w].held
      then RespondCheck(s.wrappers[w].slot, Release(w, Idle)) else Idle
    case CmdRetain(w) => Idle
    case CmdClose => CloseSwap
    case CmdWake => RubyNotify(false)
  }

  /** A Ruby call begins; retain! is done at once. */
  function Begin(s: State, c: Command): State {
    match c
    case CmdRetain(w) =>
      if w in s.wrappers && s.wrappers[w].valid
      then s.(wrappers := s.wrappers[w := s.wrappers[w].(held := true)]) else s
    case _ => Rb(s, FirstPoint(s, c))
  }

  /** A collection in the middle of a drain runs the finaliser of a wrapper, which
      releases it if it is valid. */
  function Collect(s: State, w: nat): State {
    Rb(s, if w in s.wrappers && s.wrappers[w].valid then RespondCheck(s.wrappers[w].slot, Release(w, s.ruby)) else s.ruby)
  }

  /** Where Ruby stands in the call itself, when it runs a finaliser in the middle of it. */
  function Outer(pc: RubyPc): RubyPc {
    if pc.Invalidate? then pc.back else if HasJob(pc) && pc.job.Release? then pc.job.back else pc
  }

  predicate HasJob(pc: RubyPc) {
    pc.RespondCheck? || pc.AnswerCas? || pc.AnswerSend? || pc.DisarmStore? || pc.DisarmSpin?
    || pc.ReleaseMessage? || pc.StoreSequence?
  }

  /** Ruby is about to mark wrapper w as released. */
  predicate Invalidates(pc: RubyPc, w: nat) { pc.Invalidate? && pc.w == w }

  predicate UsesSlot(pc: RubyPc) {
    pc.Wrap? || pc.AnswerCas? || pc.AnswerSend? || pc.DisarmStore? || pc.DisarmSpin?
    || pc.ReleaseMessage? || pc.StoreSequence?
  }

  predicate RubyReady(s: State) {
    && Shape(s) && s.ruby != Idle
    && (UsesSlot(s.ruby) ==> s.ruby.slot < Cap(s))
    && (s.ruby.Invalidate? ==> s.ruby.w in s.wrappers)
  }

  function RubyStep(s: State, spurious: bool): State
    requires RubyReady(s)
  {
    match s.ruby
    case Idle => s
    case DrainEmpty(_) => DoDrainEmpty(s)
    case MakeArray(_) => DoMakeArray(s, spurious)
    case DeqLoad(_) => DoDeqLoad(s)
    case DeqRead(_, _) => DoDeqRead(s)
    case DeqCas(_, _) => DoDeqCas(s, spurious)
    case Wrap(_, _) => DoWrap(s)
    case CountDelivered(_) => DoCountDelivered(s)
    case Clear => DoClear(s)
    case DepthEnq => DoDepthEnq(s)
    case DepthDeq(_) => DoDepthDeq(s)
    case RubyNotify(_) => DoRubyNotify(s)
    case RubyWrite => DoRubyWrite(s)
    case RespondCheck(_, _) => DoRespondCheck(s)
    case AnswerCas(_, _) => DoAnswerCas(s)
    case AnswerSend(_, _) => DoAnswerSend(s)
    case DisarmStore(_, _, _) => DoDisarmStore(s)
    case DisarmSpin(_, _, _) => DoDisarmSpin(s)
    case ReleaseMessage(_, _) => DoReleaseMessage(s)
    case StoreSequence(_, _) => DoStoreSequence(s)
    case Invalidate(_, _) => DoInvalidate(s)
    case CloseSwap => DoCloseSwap(s)
    case CloseSpin => DoCloseSpin(s)
    case CloseStop => DoCloseStop(s)
    case CloseAwait => DoCloseAwait(s)
    case SweepRead(_) => DoSweepRead(s)
    case DeleteReady => DoDeleteReady(s)
    case Join => DoJoin(s)
  }

  // --------------------------------------------------------------------- runs

  datatype Action =
    | Deliver(isAuth: bool, deadline: nat)
    | CallbackActs(m: nat, spurious: bool)
    | WatchdogActs(root: nat)
    | RubyActs(spurious: bool)
    | RubyCalls(command: Command)
    | Collects(w: nat)
    | Tick(now: nat)

  /** Endpoint Security delivers nothing once es_delete_client has returned. */
  predicate Enabled(s: State, a: Action) {
    match a
    case Deliver(_, _) => Shape(s) && s.wd != Gone
    case CallbackActs(m, _) => CallbackReady(s, m)
    case WatchdogActs(k) => WatchdogReady(s, k)
    case RubyActs(_) => RubyReady(s)
    case RubyCalls(_) => Shape(s) && s.ruby == Idle
    case Collects(_) => Shape(s) && (s.ruby.MakeArray? || s.ruby.Wrap?)
    case Tick(now) => s.clock <= now
  }

  function Next(s: State, a: Action): State
    requires Enabled(s, a)
  {
    match a
    case Deliver(auth, deadline) => Arrive(s, auth, deadline)
    case CallbackActs(m, spurious) => CallbackStep(s, m, spurious)
    case WatchdogActs(k) => WatchdogStep(s, k)
    case RubyActs(spurious) => RubyStep(s, spurious)
    case RubyCalls(c) => Begin(s, c)
    case Collects(w) => Collect(s, w)
    case Tick(now) => s.(clock := now)
  }

  /** The run is as it must be at i: it begins in an initial state, and each
      further state comes from the one before by the action in between. */
  ghost predicate RunsAt(run: seq<State>, acts: seq<Action>, i: nat)
    requires i < |run| == |acts| + 1
  {
    if i == 0 then Init(run[0]) else Follows(run[i - 1], acts[i - 1], run[i])
  }

  ghost predicate Follows(s: State, a: Action, t: State) {
    Enabled(s, a) && Next(s, a) == t
  }

  ghost predicate IsRun(run: seq<State>, acts: seq<Action>) {
    |run| == |acts| + 1 && forall i: nat :: i < |run| ==> RunsAt(run, acts, i)
  }

  /** t is the last state of some run. */
  ghost predicate Reachable(t: State) {
    exists run, acts :: IsRun(run, acts) && run[|acts|] == t
  }
}
