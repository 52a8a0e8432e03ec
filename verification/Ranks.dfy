/** How far each actor is from the end of what it is doing, if the others stand still. */
module Ranks {
  import opened Rings
  import opened Protocol
  import Lifecycle

  // -------------------------------------------------------------- a callback

  /** The steps left to a callback whose compare-and-swaps do not fail for no reason.
      A position that has become stale costs one more round. */
  function CallbackRank(s: State, m: nat): nat
    requires m < |s.pcs|
  {
    match s.pcs[m]
    case Check => 22
    case Retain => 21
    case EnqRead(pos) => if pos == s.queue.enq then 18 else 20
    case EnqLoad => 19
    case EnqCas(pos) => if pos == s.queue.enq then 17 else 19
    case Fill => 16
    case SetAnswer => 15
    case SetOccupied => 14
    case ArmRead(at) => if at == s.requests.enq then 11 else 13
    case ArmLoad => 12
    case ArmCas(at) => if at == s.requests.enq then 10 else 12
    case SelfCas => 9
    case ArmFill(_) => 9
    case SelfSend => 8
    case ArmPublish(_) => 8
    case PubLoad => 7
    case PubMax(_) => 6
    case PubCas(depth, maximum) => if depth > maximum && maximum != s.depthMax then 6 else 5
    case PubStore => 4
    case Full => 4
    case NotifyCas => 3
    case FullCount => 3
    case NotifyWrite => 2
    case FullRelease => 2
    case Refuse => 2
    case Leave => 1
    case Done => 0
  }

  /** The step brings the callback nearer to its return. */
  predicate CallbackNears(s: State, t: State, m: nat) {
    m < |s.pcs| == |t.pcs| && CallbackRank(t, m) < CallbackRank(s, m)
  }

  // -------------------------------------------------------------- the watchdog

  /** The part of a turn of the main loop: taking requests, answering, going round. */
  function Part(pc: WatchdogPc): nat {
    if pc.PopRead? || pc.PopTake? || pc.PopFree? || pc.HeapSet? then 2
    else if pc.Clock? || pc.Scan? || InDue(pc) then 1
    else 0
  }

  /** What the part has left to do: requests in the ring, or entries in the heap. */
  function Load(s: State): int {
    if Part(s.wd) == 2 then s.requests.enq - s.requests.deq
    else if Part(s.wd) == 1 then |s.heap|
    else 0
  }

  /** The steps left to one request, to one entry, or to the end of the loop. */
  function Turns(pc: WatchdogPc): nat {
    match pc
    case PopFree(_) => 3
    case HeapSet(_) => 2
    case PopRead => 1
    case PopTake => 0
    case Due(_) => 12
    case Enter(_) => 11
    case Recheck(_) => 10
    case Compare(_) => 9
    case Decide(_) => 8
    case Send(_) => 7
    case CountTimeout(_) => 6
    case TimeoutNotify(_) => 5
    case TimeoutWrite(_) => 4
    case Unread(_) => 3
    case Clock => 2
    case Scan(_) => 1
    case Sleep => 5
    case Top => 4
    case Exit => 3
    case AwaitDelete => 2
    case Delete => 1
    case Gone => 0
  }

  /** A step of a watchdog told to stop brings it nearer to the end of its loop, and
      in answer_due every step brings it nearer to the end of that. */
  predicate WatchdogNears(s: State, t: State) {
    && (InDue(s.wd) ==> Turns(t.wd) < Turns(s.wd))
    && (!s.running && !Lifecycle.Ended(s.wd) ==>
        || Part(t.wd) < Part(s.wd)
        || (Part(t.wd) == Part(s.wd) && Load(t) < Load(s))
        || (Part(t.wd) == Part(s.wd) && Load(t) == Load(s) && Turns(t.wd) < Turns(s.wd)))
    && (s.deleteReady && Lifecycle.Ended(s.wd) && s.wd != Gone ==> Turns(t.wd) < Turns(s.wd))
  }

  // -------------------------------------------------------------- Ruby

  /** Ruby is in a spin whose condition does not hold yet. */
  predicate Spins(s: State) {
    match s.ruby
    case DisarmSpin(i, _, _) => i < |s.slots| && s.slots[i].readers != 0
    case CloseSpin => s.active != 0
    case CloseAwait => !s.stopped
    case Join => s.wd != Gone
    case _ => false
  }

  /** The stages of a close, and of a drain. */
  function CallStage(pc: RubyPc): nat {
    if Lifecycle.CloseRank(pc) > 0 then 8 - Lifecycle.CloseRank(pc)
    else match Outer(pc)
      case CloseSwap => 8
      case DrainEmpty(_) => 2
      case MakeArray(_) => 2
      case DeqLoad(_) => 1
      case DeqRead(_, _) => 1
      case DeqCas(_, _) => 1
      case Wrap(_, _) => 1
      case CountDelivered(_) => 1
      case _ => 0
  }

  /** What the stage has left to do: bytes in the pipe, messages to deliver, slots
      to sweep, or slots to take out of the ring. */
  function Work(s: State): int {
    match Outer(s.ruby)
    case DrainEmpty(_) => s.pipe
    case DeqLoad(Draining(left)) => left
    case DeqRead(Draining(left), _) => left
    case DeqCas(Draining(left), _) => left
    case Wrap(left, _) => left
    case CountDelivered(left) => left
    case SweepRead(i) => if i < s.queue.cap then s.queue.cap - i else 0
    case AnswerCas(i, Sweep) => s.queue.cap - i
    case AnswerSend(i, Sweep) => s.queue.cap - i
    case _ => if CallStage(s.ruby) == 3 then s.queue.enq - s.queue.deq else 0
  }

  /** The steps left to one of these, or to the end of the call.  Ruby in a drain
      goes on from the take; the closer begins anew with the next one. */
  function Points(s: State): nat {
    match s.ruby
    case DeqRead(mode, pos) => (if pos == s.queue.deq then 1 else 3) + if mode.Draining? then 2 else 0
    case DeqLoad(mode) => 2 + if mode.Draining? then 2 else 0
    case DeqCas(mode, pos) => (if pos == s.queue.deq then 0 else 2) + if mode.Draining? then 2 else 0
    case Wrap(_, _) => 1
    case SweepRead(_) => 12
    case RespondCheck(_, _) => 12
    case AnswerCas(_, _) => 11
    case AnswerSend(_, _) => 10
    case DisarmStore(_, _, again) => if again then 6 else 9
    case DisarmSpin(_, _, again) => if again then 5 else 8
    case ReleaseMessage(_, _) => 7
    case StoreSequence(_, _) => 4
    case Invalidate(_, _) => 3
    case DrainEmpty(_) => 1
    case Clear => 5
    case DepthEnq => 4
    case DepthDeq(_) => 3
    case RubyNotify(_) => 2
    case RubyWrite => 1
    case _ => 0
  }

  /** Unless it spins, Ruby's step brings it nearer to the end of its call. */
  predicate RubyNears(s: State, t: State) {
    !Spins(s) ==>
      || CallStage(t.ruby) < CallStage(s.ruby)
      || (CallStage(t.ruby) == CallStage(s.ruby) && Work(t) < Work(s))
      || (CallStage(t.ruby) == CallStage(s.ruby) && Work(t) == Work(s) && Points(t) < Points(s))
  }
}
