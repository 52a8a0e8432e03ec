/** What the calls that Ruby makes decide over whole runs. */
module Traces {
  import opened Rings
  import opened Words
  import opened Protocol
  import opened Structure
  import Handshake
  import Ownership
  import Wakeup
  import opened Steps
  import opened Effects
  import Runs
  import Theorems

  // -------------------------------------------------------------- drains that raise

  /** The call of a drain that empties the pipe and then raises. */
  predicate RaisingDrain(a: Action) {
    a.RubyCalls? && a.command.CmdDrain? && IsLong(a.command.maximum) && !IsArraySize(a.command.maximum)
  }

  /** The step raises, or begins a drain that will: no memory, or no size. */
  predicate Raises(s: State, a: Action) {
    RaisingDrain(a) || (s.ruby.MakeArray? && a == RubyActs(true))
  }

  predicate Unbroken(s: State) {
    !s.broken && (Wakeup.Making(s.ruby) ==> IsArraySize(Maximum(s.ruby)))
  }

  lemma BeginIs(s: State, c: Command)
    requires !c.CmdRetain?
    ensures Begin(s, c) == Rb(s, FirstPoint(s, c))
  {
    hide FirstPoint, Rb;
  }

  lemma CallKeepsUnbroken(s: State, c: Command)
    requires s.ruby == Idle && Unbroken(s) && !RaisingDrain(RubyCalls(c))
    ensures Unbroken(Begin(s, c))
  {
    if !c.CmdRetain? { BeginIs(s, c); }
  }

  lemma StepKeepsUnbroken(s: State, a: Action)
    requires Good(s) && Enabled(s, a) && Unbroken(s) && !Raises(s, a)
    ensures Unbroken(Next(s, a))
  {
    hide Good, CallbackStep, WatchdogStep, RubyStep, Begin;
    match a
    case CallbackActs(m, spurious) => Runs.CallbackEffectOf(s, m, spurious);
    case WatchdogActs(k) => WatchdogStepEffect(s, k);
    case RubyActs(fails) => Runs.RubyEffectOf(s, fails);
    case RubyCalls(c) => CallKeepsUnbroken(s, c);
    case _ =>
  }

  lemma InitIsUnbroken(s: State)
    requires Init(s)
    ensures Unbroken(s)
  {}

  lemma {:induction false} UnbrokenAt(run: seq<State>, acts: seq<Action>, i: nat)
    requires IsRun(run, acts) && i <= |acts|
    requires forall k :: 0 <= k < i ==> !Raises(run[k], acts[k])
    ensures Unbroken(run[i])
    decreases i
  {
    hide Good, Init, Unbroken, Next, Enabled, Raises;
    assert RunsAt(run, acts, i);
    if i == 0 {
      InitIsUnbroken(run[0]);
    } else {
      UnbrokenAt(run, acts, i - 1);
      Runs.RunKeeps(run, acts, i - 1);
      assert !Raises(run[i - 1], acts[i - 1]);
      StepKeepsUnbroken(run[i - 1], acts[i - 1]);
    }
  }

  /** In a run in which no drain raises after emptying the pipe, no wakeup is ever lost. */
  lemma NoLostWakeupWithoutRaising(run: seq<State>, acts: seq<Action>, p: nat)
    requires IsRun(run, acts) && forall k :: 0 <= k < |acts| ==> !Raises(run[k], acts[k])
    ensures var t := run[|acts|];
      t.queue.deq <= p < t.queue.enq && !Wakeup.Draining(t.ruby) && !Wakeup.WillNotify(t.ruby, p) ==>
        && p < |t.claims| && t.claims[p] < |t.pcs|
        && (Wakeup.Announced(t.pcs[t.claims[p]]) ==> t.pipe > 0 || Wakeup.SomeoneWrites(t))
  {
    var t := run[|acts|];
    UnbrokenAt(run, acts, |acts|);
    Runs.RunKeeps(run, acts, |acts|);
    hide IsRun;
    if p < |t.claims| { assert ClaimOk(t, p) && Wakeup.Seen(t, p); }
  }

  // -------------------------------------------------------------- how a wakeup is lost

  ghost function Writers(s: State): set<nat> { set m | 0 <= m < |s.pcs| && s.pcs[m] == NotifyWrite }

  /** The callback has written its byte, if it was about to. */
  function Written(pc: CallbackPc): CallbackPc { if pc == NotifyWrite then Leave else pc }

  lemma NotifyWriteFollows(s: State, m: nat)
    requires Shape(s) && m < |s.pcs| && s.pcs[m] == NotifyWrite
    ensures Follows(s, CallbackActs(m, false), DoNotifyWrite(s, m))
  {
    hide DoCheck, DoRefuse, DoRetain, DoEnqLoad, DoEnqRead, DoEnqCas, DoFull, DoFullCount, DoFullRelease, DoFill;
    hide DoSetAnswer, DoSetOccupied, DoArmLoad, DoArmRead, DoArmCas, DoArmFill, DoArmPublish, DoSelfCas, DoSelfSend;
    hide DoPubLoad, DoPubMax, DoPubCas, DoPubStore, DoNotifyCas, DoNotifyWrite, DoLeave;
  }

  lemma TimeoutWriteFollows(s: State)
    requires Good(s) && s.wd.TimeoutWrite?
    ensures Follows(s, WatchdogActs(0), DoTimeoutWrite(s, s.wd.entry))
  {
    hide DoTop, DoPopRead, DoPopTake, DoPopFree, DoHeapSet, DoClock, DoScan, DoDue, DoEnter, DoRecheck, DoCompare;
    hide DoDecide, DoSend, DoCountTimeout, DoTimeoutNotify, DoTimeoutWrite, DoUnread, DoExit, DoAwaitDelete, Wd;
  }

  /** All callbacks that are about to write their byte do so. */
  lemma {:induction false} CallbacksWrite(s: State) returns (t: State)
    requires Reachable(s) && Shape(s)
    ensures Reachable(t) && Writers(t) == {} && t == s.(pcs := t.pcs, pipe := t.pipe) && |t.pcs| == |s.pcs|
    ensures forall m :: 0 <= m < |s.pcs| ==> t.pcs[m] == Written(s.pcs[m])
    decreases |Writers(s)|
  {
    hide Reachable, Follows;
    if Writers(s) == {} {
      t := s;
      forall m | 0 <= m < |s.pcs| ensures t.pcs[m] == Written(s.pcs[m]) { assert m !in Writers(s); }
    } else {
      var m :| m in Writers(s);
      var n := DoNotifyWrite(s, m);
      NotifyWriteFollows(s, m);
      Runs.FollowsIsReachable(s, CallbackActs(m, false), n);
      assert Writers(n) == Writers(s) - {m};
      t := CallbacksWrite(n);
    }
  }

  /** All actors but Ruby that are about to write a byte do so. */
  lemma WritersWrite(s: State) returns (t: State)
    requires Reachable(s) && !s.ruby.RubyWrite?
    ensures Reachable(t) && !Wakeup.SomeoneWrites(t) && t == s.(pcs := t.pcs, pipe := t.pipe, wd := t.wd)
    ensures |t.pcs| == |s.pcs| && forall m :: 0 <= m < |s.pcs| ==> t.pcs[m] == Written(s.pcs[m])
  {
    hide Reachable, Follows, Good;
    Runs.ReachableIsGood(s);
    GoodShape(s);
    t := CallbacksWrite(s);
    if t.wd.TimeoutWrite? {
      var u := t;
      t := DoTimeoutWrite(u, u.wd.entry);
      Runs.ReachableIsGood(u);
      TimeoutWriteFollows(u);
      Runs.FollowsIsReachable(u, WatchdogActs(0), t);
    }
    forall m | 0 <= m < |t.pcs| ensures t.pcs[m] != NotifyWrite {}
  }

  /** From every state with an announced item in the queue, Ruby free and the client
      open, a wakeup can be lost: those who are about to write a byte do so, and a
      drain reads the bytes and then raises. */
  lemma WakeupCanBeLost(s: State, p: nat, maximum: int, fails: bool) returns (t: State)
    requires Reachable(s) && s.ruby == Idle && !s.closed
    requires IsLong(maximum) && (fails || !IsArraySize(maximum))
    requires s.queue.deq <= p < |s.claims| && s.claims[p] < |s.pcs| && Wakeup.Announced(s.pcs[s.claims[p]])
    ensures Reachable(t) && Theorems.Lost(t) && Dead(t) && t.queue == s.queue && t.claims == s.claims
    ensures s.claims[p] < |t.pcs| && Wakeup.Announced(t.pcs[s.claims[p]])
  {
    hide Reachable;
    var n := WritersWrite(s);
    t := Theorems.RaisingDrainLosesWakeups(n, p, maximum, fails);
  }

  // -------------------------------------------------------------- what is lost stays lost

  /** The call of a drain whose maximum is a size for an array. */
  predicate SizedDrain(a: Action) {
    a.RubyCalls? && a.command.CmdDrain? && IsArraySize(a.command.maximum)
  }

  /** Nobody tells Ruby anything, and no drain is under way that could get through. */
  ghost predicate Dead(s: State) {
    && s.notified && s.pipe == 0 && !Wakeup.SomeoneWrites(s) && !Wakeup.Emptied(s.ruby)
    && (Wakeup.Making(s.ruby) ==> !IsArraySize(Maximum(s.ruby)))
  }

  lemma CallbackKeepsDead(s: State, t: State, m: nat, spurious: bool)
    requires Dead(s) && CallbackEffect(s, t, m, spurious)
    ensures Dead(t)
  {}

  lemma OtherKeepsDead(s: State, t: State)
    requires Dead(s) && t.pcs == s.pcs && t.notified && t.pipe == 0 && !t.wd.TimeoutWrite? && !t.ruby.RubyWrite?
    requires !Wakeup.Emptied(t.ruby) && (Wakeup.Making(t.ruby) ==> !IsArraySize(Maximum(t.ruby)))
    ensures Dead(t)
  {}

  lemma RubyKeepsDead(s: State, t: State, fails: bool)
    requires Dead(s) && RubyEffect(s, t, fails)
    ensures Dead(t)
  {
    OtherKeepsDead(s, t);
  }

  lemma CallKeepsDead(s: State, c: Command)
    requires s.ruby == Idle && Dead(s) && !SizedDrain(RubyCalls(c))
    ensures Dead(Begin(s, c))
  {
    if !c.CmdRetain? { BeginIs(s, c); }
    OtherKeepsDead(s, Begin(s, c));
  }

  lemma DeliverKeepsDead(s: State, auth: bool, deadline: nat)
    requires Dead(s)
    ensures Dead(Arrive(s, auth, deadline))
  {}

  lemma StepKeepsDead(s: State, a: Action)
    requires Good(s) && Enabled(s, a) && Dead(s) && !SizedDrain(a)
    ensures Dead(Next(s, a))
  {
    hide Good, CallbackStep, WatchdogStep, RubyStep, Begin, Arrive;
    match a
    case Deliver(auth, deadline) => DeliverKeepsDead(s, auth, deadline);
    case CallbackActs(m, spurious) =>
      Runs.CallbackEffectOf(s, m, spurious);
      CallbackKeepsDead(s, CallbackStep(s, m, spurious), m, spurious);
    case WatchdogActs(k) =>
      WatchdogStepEffect(s, k);
      OtherKeepsDead(s, WatchdogStep(s, k));
    case RubyActs(fails) =>
      Runs.RubyEffectOf(s, fails);
      RubyKeepsDead(s, RubyStep(s, fails), fails);
    case RubyCalls(c) => CallKeepsDead(s, c);
    case Collects(w) => OtherKeepsDead(s, Collect(s, w));
    case Tick(now) => OtherKeepsDead(s, s.(clock := now));
  }

  /** A lost wakeup stays lost: whatever arrives, expires or is called, no one tells
      Ruby anything until a drain is called whose maximum is a size for an array. */
  lemma {:induction false} LostStaysLost(run: seq<State>, acts: seq<Action>, i: nat, j: nat)
    requires IsRun(run, acts) && i <= j <= |acts| && Dead(run[i])
    requires forall k :: i <= k < j ==> !SizedDrain(acts[k])
    ensures Dead(run[j])
    decreases j - i
  {
    hide Good, Init, Next, Enabled, Dead, SizedDrain;
    assert RunsAt(run, acts, j);
    if i < j {
      LostStaysLost(run, acts, i, j - 1);
      Runs.RunKeeps(run, acts, j - 1);
      assert !SizedDrain(acts[j - 1]);
      StepKeepsDead(run[j - 1], acts[j - 1]);
    }
  }

  // -------------------------------------------------------------- wrappers under retain!

  /** A valid wrapper under retain!, not being released. */
  predicate HeldFast(s: State, w: nat) {
    w in s.wrappers && s.wrappers[w].valid && s.wrappers[w].held && !Releasing(s.ruby, w)
  }

  /** The call of release! on the wrapper, or its finaliser. */
  predicate EndsWrapper(a: Action, w: nat) { a == RubyCalls(CmdRelease(w)) || a == Collects(w) }

  lemma RetainKeepsHeld(s: State, x: nat, w: nat)
    requires HeldFast(s, w)
    ensures HeldFast(Begin(s, CmdRetain(x)), w) && Begin(s, CmdRetain(x)).wrappers[w] == s.wrappers[w]
  {}

  lemma CallKeepsHeld(s: State, c: Command, w: nat)
    requires s.ruby == Idle && HeldFast(s, w) && c != CmdRelease(w) && !c.CmdRetain?
    ensures HeldFast(Rb(s, FirstPoint(s, c)), w)
  {}

  lemma StepKeepsHeld(s: State, a: Action, w: nat)
    requires Good(s) && Enabled(s, a) && HeldFast(s, w) && !EndsWrapper(a, w)
    ensures HeldFast(Next(s, a), w) && Next(s, a).wrappers[w] == s.wrappers[w]
  {
    hide Good, CallbackStep, WatchdogStep, RubyStep, Begin;
    match a
    case CallbackActs(m, spurious) => Runs.CallbackEffectOf(s, m, spurious);
    case WatchdogActs(k) => WatchdogStepEffect(s, k);
    case RubyActs(fails) => Runs.RubyEffectOf(s, fails);
    case RubyCalls(c) => if c.CmdRetain? { RetainKeepsHeld(s, c.w, w); } else { CallKeepsHeld(s, c, w); BeginIs(s, c); }
    case _ =>
  }

  lemma {:induction false} HeldAt(run: seq<State>, acts: seq<Action>, i: nat, j: nat, w: nat)
    requires IsRun(run, acts) && i <= j <= |acts| && HeldFast(run[i], w)
    requires forall k :: i <= k < j ==> !EndsWrapper(acts[k], w)
    ensures HeldFast(run[j], w) && run[j].wrappers[w] == run[i].wrappers[w]
    decreases j - i
  {
    hide Good, Init, Next, Enabled, HeldFast, EndsWrapper;
    assert RunsAt(run, acts, j);
    if i < j {
      HeldAt(run, acts, i, j - 1, w);
      Runs.RunKeeps(run, acts, j - 1);
      assert !EndsWrapper(acts[j - 1], w);
      StepKeepsHeld(run[j - 1], acts[j - 1], w);
    }
  }

  /** From the moment a valid wrapper is under retain!, through every interleaving,
      until someone calls release! on it or its finaliser runs: it stays valid and
      held, its slot shows its message, and the message is not released. */
  lemma HeldSurvives(run: seq<State>, acts: seq<Action>, i: nat, j: nat, w: nat)
    requires IsRun(run, acts) && i <= j <= |acts| && HeldFast(run[i], w)
    requires forall k :: i <= k < j ==> !EndsWrapper(acts[k], w)
    ensures w in run[j].wrappers && run[j].wrappers[w] == run[i].wrappers[w] && run[j].wrappers[w].valid
    ensures var t := run[j];
      && w < |t.claims| && t.wrappers[w].slot < |t.slots| && t.claims[w] < |t.releases|
      && t.slots[t.wrappers[w].slot].message == t.claims[w] && t.releases[t.claims[w]] == 0
  {
    HeldAt(run, acts, i, j, w);
    Runs.RunKeeps(run, acts, j);
    hide IsRun;
    HeldIsRetained(run[j], w);
  }

  lemma HeldIsRetained(t: State, w: nat)
    requires Good(t) && HeldFast(t, w)
    ensures w < |t.claims| && t.wrappers[w].slot < |t.slots| && t.claims[w] < |t.releases|
    ensures t.slots[t.wrappers[w].slot].message == t.claims[w] && t.releases[t.claims[w]] == 0
  {
    var i := t.wrappers[w].slot;
    assert Handshake.WrapperOk(t, w);
    assert Handshake.SlotOk(t, i) && ClaimedOk(t, i) && Ownership.SlotOwner(t, i);
    assert Ownership.MsgOwner(t, t.claims[w]);
  }
}
