/** Fourth layer: closing the client.  Each stage of client_close_native can
    rely on what the stages before it have waited for. */
module Lifecycle {
  import opened Rings
  import opened Protocol
  import opened Structure
  import Handshake
  import opened Tokens

  /** The callback has passed the closed check and still works on the queue. */
  predicate Accepting(pc: CallbackPc) {
    !(pc.Check? || pc.Refuse? || pc.Leave? || pc.Done?)
  }

  /** How far Ruby has come in client_close_native; 0 outside. */
  function CloseRank(pc: RubyPc): nat {
    match pc
    case CloseSpin => 1
    case CloseStop => 2
    case CloseAwait => 3
    case SweepRead(_) => 4
    case AnswerCas(_, job) => if job.Sweep? then 4 else if job.Discard? then 5 else 0
    case AnswerSend(_, job) => if job.Sweep? then 4 else if job.Discard? then 5 else 0
    case DeqLoad(mode) => if mode.Closing? then 5 else 0
    case DeqRead(mode, _) => if mode.Closing? then 5 else 0
    case DeqCas(mode, _) => if mode.Closing? then 5 else 0
    case DisarmStore(_, job, _) => if job.Discard? then 5 else 0
    case DisarmSpin(_, job, _) => if job.Discard? then 5 else 0
    case ReleaseMessage(_, job) => if job.Discard? then 5 else 0
    case StoreSequence(_, job) => if job.Discard? then 5 else 0
    case DeleteReady => 6
    case Join => 7
    case _ => 0
  }

  function Rank(s: State): nat { if s.finished then 8 else CloseRank(s.ruby) }

  /** The slots below this index are known to be answered. */
  function SweptBelow(s: State): nat {
    if Rank(s) < 4 then 0
    else if Rank(s) > 4 then s.queue.cap
    else match s.ruby
      case SweepRead(i) => i
      case AnswerCas(i, _) => i
      case AnswerSend(i, _) => i + 1
      case _ => 0
  }

  /** Only an open client drains, and only an open client answers for Ruby. */
  predicate OpenOnly(pc: RubyPc) {
    pc.DrainEmpty? || Outer(pc).MakeArray? || Outer(pc).Wrap? || pc.CountDelivered? || pc.Clear?
    || pc.DepthEnq? || pc.DepthDeq?
    || ((pc.DeqLoad? || pc.DeqRead? || pc.DeqCas?) && pc.mode.Draining?)
    || ((pc.AnswerCas? || pc.AnswerSend?) && (pc.job.Respond? || pc.job.Release?))
  }

  predicate Ended(pc: WatchdogPc) { pc.AwaitDelete? || pc.Delete? || pc.Gone? }

  ghost predicate Flags(s: State) {
    && (s.closed <==> Rank(s) > 0)
    && (s.finished ==> CloseRank(s.ruby) == 0 && s.wd == Gone)
    && (OpenOnly(s.ruby) ==> !s.closed)
    && (!s.running <==> Rank(s) >= 3)
    && (s.wd == Exit || Ended(s.wd) ==> !s.running)
    && (s.stopped <==> Ended(s.wd))
    && (Rank(s) >= 4 ==> s.stopped)
    && (s.deleteReady <==> Rank(s) >= 7)
    && (s.wd == Delete || s.wd == Gone ==> s.deleteReady)
    && (Rank(s) >= 6 ==> s.queue.deq == s.queue.enq)
  }

  ghost predicate Quiet(s: State) {
    forall m :: 0 <= m < Count(s) ==> !Accepting(s.pcs[m])
  }

  /** Ruby has an answered slot in hand: it has tried to answer it, or the client is closed. */
  predicate Settles(pc: RubyPc) {
    pc.AnswerSend? || pc.DisarmStore? || pc.DisarmSpin? || pc.ReleaseMessage? || pc.StoreSequence?
  }

  ghost predicate Swept(s: State) {
    && (forall i :: 0 <= i < |s.slots| && i < SweptBelow(s) ==> s.slots[i].answer != Pending)
    && (Settles(s.ruby) && s.ruby.slot < |s.slots| ==> s.slots[s.ruby.slot].answer != Pending)
  }

  ghost predicate InsideOk(s: State, m: nat) {
    m in s.inside <==> m < |s.pcs| && s.pcs[m] != Done
  }

  /** `active_callbacks` counts the callbacks that have entered and not left. */
  ghost predicate Active(s: State) {
    && s.active == |s.inside|
    && (forall m: nat :: InsideOk(s, m))
  }

  ghost predicate Inv(s: State) {
    && Shape(s) && Flags(s) && (Rank(s) >= 2 ==> Quiet(s)) && Swept(s) && Active(s)
  }

  // -------------------------------------------------------------- frames

  predicate SameLife(s: State, t: State) {
    && Shape(s) && Shape(t) && Cap(s) == Cap(t)
    && t.closed == s.closed && t.running == s.running && t.stopped == s.stopped
    && t.deleteReady == s.deleteReady && t.finished == s.finished
  }

  /** A callback moves without entering or leaving; it may park an answer
      only where Ruby is not looking. */
  lemma CallbackKeeps(s: State, t: State, m: nat)
    requires Inv(s) && SameLife(s, t) && m < Count(s) == Count(t)
    requires t.pcs == s.pcs[m := t.pcs[m]] && s.pcs[m] != Done && t.pcs[m] != Done
    requires t.active == s.active && t.inside == s.inside && t.wd == s.wd && t.ruby == s.ruby
    requires Accepting(t.pcs[m]) ==> Accepting(s.pcs[m]) || !s.closed
    requires t.queue.deq == s.queue.deq && (t.queue.enq == s.queue.enq || Accepting(s.pcs[m]))
    requires forall i :: 0 <= i < Cap(s) && t.slots[i].answer == Pending ==>
      s.slots[i].answer == Pending || (Accepting(s.pcs[m]) && !(Settles(s.ruby) && s.ruby.slot == i))
    ensures Inv(t)
  {
    forall j: nat ensures InsideOk(t, j) { assert InsideOk(s, j); }
  }

  /** Nothing this layer reads changes, except that answers may be settled. */
  lemma UntouchedKeeps(s: State, t: State)
    requires Inv(s) && SameLife(s, t)
    requires t.pcs == s.pcs && t.active == s.active && t.inside == s.inside && t.ruby == s.ruby
    requires t.wd == s.wd || (Ended(t.wd) == Ended(s.wd) && (t.wd == Exit ==> !s.running)
      && (t.wd == Delete || t.wd == Gone ==> s.deleteReady) && s.wd != Gone)
    requires t.queue.deq == s.queue.deq && t.queue.enq == s.queue.enq
    requires forall i :: 0 <= i < Cap(s) && t.slots[i].answer == Pending ==> s.slots[i].answer == Pending
    ensures Inv(t)
  {
    forall j: nat ensures InsideOk(t, j) { assert InsideOk(s, j); }
  }

  /** The watchdog's loop has ended. */
  lemma ExitKeeps(s: State)
    requires Inv(s) && s.wd == Exit
    ensures Inv(DoExit(s))
  {
    var t := DoExit(s);
    forall j: nat ensures InsideOk(t, j) { assert InsideOk(s, j); }
  }

  /** Ruby moves; what its new point relies on is given. */
  lemma RubyKeeps(s: State, t: State)
    requires Inv(s) && Shape(t) && Cap(s) == Cap(t)
    requires t.pcs == s.pcs && t.active == s.active && t.inside == s.inside && t.wd == s.wd && t.stopped == s.stopped
    requires Flags(t) && (Rank(t) >= 2 ==> Quiet(t))
    requires forall i :: 0 <= i < Cap(s) && t.slots[i].answer == Pending ==> s.slots[i].answer == Pending
    requires forall i :: 0 <= i < Cap(s) && i < SweptBelow(t) ==> i < SweptBelow(s) || t.slots[i].answer != Pending
    requires Settles(t.ruby) && t.ruby.slot < Cap(s) ==> t.slots[t.ruby.slot].answer != Pending
    ensures Inv(t)
  {
    forall j: nat ensures InsideOk(t, j) { assert InsideOk(s, j); }
  }

  lemma ArriveKeeps(s: State, auth: bool, deadline: nat)
    requires Inv(s)
    ensures Inv(Arrive(s, auth, deadline))
  {
    var t := Arrive(s, auth, deadline);
    assert InsideOk(s, |s.pcs|);
    forall j: nat ensures InsideOk(t, j) { assert InsideOk(s, j); }
  }

  lemma LeaveKeeps(s: State, m: nat)
    requires Inv(s) && m < Count(s) && s.pcs[m] == Leave
    ensures Inv(DoLeave(s, m))
  {
    var t := DoLeave(s, m);
    assert InsideOk(s, m);
    forall j: nat ensures InsideOk(t, j) { assert InsideOk(s, j); }
  }

  /** Once the spin has seen no active callback, none is accepting. */
  lemma SpinQuiets(s: State)
    requires Inv(s) && s.active == 0
    ensures Quiet(s)
  {
    assert s.inside == {};
    forall m | 0 <= m < Count(s) ensures !Accepting(s.pcs[m]) { assert InsideOk(s, m); }
  }

  /** With the callbacks gone, a slot that reads unoccupied has nothing to answer. */
  lemma UnoccupiedIsSettled(s: State, i: nat)
    requires Structure.Inv(s) && Handshake.Slots(s) && Tokens.Inv(s) && Quiet(s)
    requires i < Cap(s) && !s.slots[i].occupied && !Handshake.Disarmed(s.ruby, i)
    ensures s.slots[i].answer != Pending
  {
    assert Handshake.SlotOk(s, i) && ClaimedOk(s, i) && SlotToken(s, i);
  }

  /** With the callbacks gone, an empty read of the ring means that it is empty. */
  lemma EmptyReadIsEmpty(s: State, pos: nat)
    requires Structure.Inv(s) && Quiet(s) && pos <= s.queue.deq
    requires s.queue.cells[At(pos, Cap(s))].sequence < pos + 1
    ensures s.queue.deq == s.queue.enq
  {
    DequeueRead(s.queue, pos);
    var i := At(pos, Cap(s));
    assert CellOk(s.queue, i) && ClaimedOk(s, i);
    assert s.queue.deq < s.queue.enq ==> Stands(s.queue, s.queue.deq);
  }
}
