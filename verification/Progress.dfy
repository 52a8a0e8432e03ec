/** No spin waits for an actor that cannot go on, and every call can end. */
module Progress {
  import opened Rings
  import opened Protocol
  import opened Structure
  import Handshake
  import Lifecycle
  import opened Steps
  import opened Ranks
  import opened Effects
  import Runs
  import Theorems

  // -------------------------------------------------------------- sequences of steps

  /** The actions, each enabled when its turn comes, take s to t. */
  ghost predicate Leads(s: State, acts: seq<Action>, t: State)
    decreases |acts|
  {
    if acts == [] then s == t else Enabled(s, acts[0]) && Leads(Next(s, acts[0]), acts[1..], t)
  }

  lemma Prepend(s: State, a: Action, acts: seq<Action>, t: State)
    requires Enabled(s, a) && Leads(Next(s, a), acts, t)
    ensures Leads(s, [a] + acts, t)
  {
    hide Enabled, Next;
    assert ([a] + acts)[1..] == acts;
  }

  lemma {:induction false} Append(s: State, acts: seq<Action>, m: State, more: seq<Action>, t: State)
    requires Leads(s, acts, m) && Leads(m, more, t)
    ensures Leads(s, acts + more, t)
    decreases |acts|
  {
    hide Enabled, Next;
    if acts == [] {
      assert acts + more == more;
    } else {
      Append(Next(s, acts[0]), acts[1..], m, more, t);
      assert (acts + more)[1..] == acts[1..] + more;
    }
  }

  lemma {:induction false} LeadsIsReachable(s: State, acts: seq<Action>, t: State)
    requires Reachable(s) && Leads(s, acts, t)
    ensures Reachable(t)
    decreases |acts|
  {
    if acts != [] {
      hide Enabled, Next, Reachable;
      Runs.FollowsIsReachable(s, acts[0], Next(s, acts[0]));
      LeadsIsReachable(Next(s, acts[0]), acts[1..], t);
    }
  }

  // -------------------------------------------------------------- the watchdog goes on

  /** While the watchdog moves, Ruby, the queue and the messages stay as they are. */
  predicate Stays(s: State, t: State) {
    LeavesRuby(s, t) && t.queue == s.queue
  }

  lemma {:induction false} RootExists(heap: map<nat, Entry>) returns (k: nat)
    requires heap != map[]
    ensures IsRoot(heap, k)
    decreases |heap|
  {
    var j :| j in heap;
    var rest := heap - {j};
    if rest == map[] {
      assert forall i :: i in heap ==> i == j by {
        forall i | i in heap ensures i == j { assert i == j || i in rest; }
      }
      k := j;
    } else {
      var r := RootExists(rest);
      assert forall i :: i in heap ==> i == j || i in rest;
      k := if heap[j].fireAt <= heap[r].fireAt then j else r;
    }
  }

  lemma WatchdogIsReady(s: State) returns (k: nat)
    requires Good(s) && s.wd != Gone
    ensures WatchdogReady(s, k)
  {
    k := 0;
    if s.heap != map[] { k := RootExists(s.heap); }
  }

  lemma WatchdogGoes(s: State) returns (a: Action, t: State)
    requires Good(s) && s.wd != Gone
    ensures a.WatchdogActs? && Enabled(s, a) && t == Next(s, a)
    ensures Good(t) && WatchdogEffect(s, t)
  {
    hide Good, WatchdogReady, WatchdogStep;
    var k := WatchdogIsReady(s);
    Runs.WatchdogNext(s, k);
    WatchdogStepEffect(s, k);
    a, t := WatchdogActs(k), WatchdogStep(s, k);
  }

  /** The watchdog leaves answer_due. */
  lemma {:induction false} ReaderLeaves(s: State) returns (acts: seq<Action>, t: State)
    requires Good(s)
    ensures Leads(s, acts, t) && Good(t) && Stays(s, t) && !InDue(t.wd)
    ensures forall a :: a in acts ==> a.WatchdogActs?
    decreases Turns(s.wd)
  {
    hide Good, Next, Enabled;
    if !InDue(s.wd) {
      acts, t := [], s;
    } else {
      var a, m := WatchdogGoes(s);
      acts, t := ReaderLeaves(m);
      Prepend(s, a, acts, t);
      acts := [a] + acts;
    }
  }

  lemma StopperWaits(s: State)
    requires Good(s) && s.ruby == CloseAwait
    ensures !s.running && Load(s) >= 0 && (s.stopped <==> Lifecycle.Ended(s.wd))
  {}

  /** Told to stop, the watchdog ends its loop: it takes the requests that are in
      the ring, answers what is due, and finds the loop's condition false. */
  lemma {:induction false} LoopEnds(s: State) returns (acts: seq<Action>, t: State)
    requires Good(s) && s.ruby == CloseAwait
    ensures Leads(s, acts, t) && Good(t) && Stays(s, t) && t.stopped
    ensures forall a :: a in acts ==> a.WatchdogActs?
    decreases Part(s.wd), Load(s), Turns(s.wd)
  {
    StopperWaits(s);
    hide Good, Next, Enabled;
    if s.stopped {
      acts, t := [], s;
    } else {
      var a, m := WatchdogGoes(s);
      acts, t := LoopEnds(m);
      Prepend(s, a, acts, t);
      acts := [a] + acts;
    }
  }

  lemma JoinerWaits(s: State)
    requires Good(s) && s.ruby == Join
    ensures s.deleteReady && Lifecycle.Ended(s.wd)
  {}

  /** The watchdog's thread deletes the client and returns. */
  lemma {:induction false} ThreadEnds(s: State) returns (acts: seq<Action>, t: State)
    requires Good(s) && s.ruby == Join
    ensures Leads(s, acts, t) && Good(t) && Stays(s, t) && t.wd == Gone
    ensures forall a :: a in acts ==> a.WatchdogActs?
    decreases Turns(s.wd)
  {
    JoinerWaits(s);
    hide Good, Next, Enabled;
    if s.wd == Gone {
      acts, t := [], s;
    } else {
      var a, m := WatchdogGoes(s);
      acts, t := ThreadEnds(m);
      Prepend(s, a, acts, t);
      acts := [a] + acts;
    }
  }

  // -------------------------------------------------------------- the callbacks go on

  lemma InsideIsNotDone(s: State, m: nat)
    requires Good(s) && m < |s.pcs|
    ensures m in s.inside <==> s.pcs[m] != Done
  {
    assert Lifecycle.InsideOk(s, m);
  }

  lemma CallbackIsReady(s: State, m: nat)
    requires Good(s) && m in s.inside
    ensures CallbackReady(s, m) && m < |s.pcs|
  {
    assert Lifecycle.InsideOk(s, m) && PcOk(s, m);
  }

  lemma CallbackGoes(s: State, m: nat) returns (t: State)
    requires Good(s) && m in s.inside
    ensures Enabled(s, CallbackActs(m, false)) && t == Next(s, CallbackActs(m, false))
    ensures Good(t) && CallbackEffect(s, t, m, false)
    ensures m in t.inside <==> s.pcs[m] != Leave
  {
    hide Good, CallbackReady, CallbackStep;
    CallbackIsReady(s, m);
    t := CallbackStep(s, m, false);
    Runs.CallbackNext(s, m, false);
    Runs.CallbackEffectOf(s, m, false);
    InsideIsNotDone(t, m);
  }

  /** One callback returns. */
  lemma {:induction false} CallbackReturns(s: State, m: nat) returns (acts: seq<Action>, t: State)
    requires Good(s) && m in s.inside && m < |s.pcs|
    ensures Leads(s, acts, t) && Good(t) && LeavesRuby(s, t)
    ensures t.active == s.active - 1
    ensures forall a :: a in acts ==> a.CallbackActs?
    decreases CallbackRank(s, m)
  {
    hide Good, Next, Enabled;
    var a := CallbackActs(m, false);
    var n := CallbackGoes(s, m);
    if s.pcs[m] == Leave {
      acts, t := [], n;
    } else {
      acts, t := CallbackReturns(n, m);
    }
    Prepend(s, a, acts, t);
    acts := [a] + acts;
  }

  /** All callbacks return. */
  lemma {:induction false} CallbacksReturn(s: State) returns (acts: seq<Action>, t: State)
    requires Good(s)
    ensures Leads(s, acts, t) && Good(t) && LeavesRuby(s, t)
    ensures t.active == 0
    ensures forall a :: a in acts ==> a.CallbackActs?
    decreases s.active
  {
    assert s.active == |s.inside|;
    if s.active == 0 {
      acts, t := [], s;
    } else {
      var m :| m in s.inside;
      assert Lifecycle.InsideOk(s, m);
      var first, n := CallbackReturns(s, m);
      hide Good;
      var rest;
      rest, t := CallbacksReturn(n);
      Append(s, first, n, rest, t);
      acts := first + rest;
    }
  }

  // -------------------------------------------------------------- Ruby goes on

  predicate Others(a: Action) { a.WatchdogActs? || a.CallbackActs? }

  predicate Inner(a: Action) { Others(a) || a.RubyActs? }

  lemma LeadsNowhere(s: State)
    ensures Leads(s, [], s)
  {}

  lemma NoOneReads(s: State)
    requires Good(s) && !InDue(s.wd)
    ensures forall i :: 0 <= i < |s.slots| ==> s.slots[i].readers == 0
  {
    forall i | 0 <= i < |s.slots| ensures s.slots[i].readers == 0 { assert Handshake.ReaderOk(s, i); }
  }

  /** Wherever Ruby spins, steps of the actors that it waits for end the spin. */
  lemma SpinEnds(s: State) returns (acts: seq<Action>, t: State)
    requires Good(s)
    ensures Leads(s, acts, t) && Good(t) && !Spins(t) && LeavesRuby(s, t)
    ensures s.ruby == CloseSpin || t.queue == s.queue
    ensures !Spins(s) ==> t == s
    ensures forall a :: a in acts ==> if s.ruby == CloseSpin then a.CallbackActs? else a.WatchdogActs?
  {
    hide Good, Leads;
    LeadsNowhere(s);
    if !Spins(s) {
      acts, t := [], s;
    } else {
      match s.ruby
      case DisarmSpin(i, _, _) =>
        acts, t := ReaderLeaves(s);
        NoOneReads(t);
      case CloseSpin => acts, t := CallbacksReturn(s);
      case CloseAwait => acts, t := LoopEnds(s);
      case Join => acts, t := ThreadEnds(s);
    }
  }

  lemma RubyIsReady(s: State)
    requires Good(s) && s.ruby != Idle
    ensures RubyReady(s)
  {}

  lemma RubyGoes(s: State) returns (t: State)
    requires Good(s) && s.ruby != Idle
    ensures Enabled(s, RubyActs(false)) && t == Next(s, RubyActs(false))
    ensures Good(t) && RubyEffect(s, t, false)
  {
    hide Good, RubyReady, RubyStep;
    RubyIsReady(s);
    Runs.RubyNext(s, false);
    Runs.RubyEffectOf(s, false);
    t := RubyStep(s, false);
  }

  lemma WorkIsSound(s: State)
    requires Good(s)
    ensures Work(s) >= 0 && Handshake.JobOk(s.ruby)
  {}

  lemma SameWork(s: State, t: State)
    requires Spins(s) && Handshake.JobOk(s.ruby) && LeavesRuby(s, t) && (s.ruby == CloseSpin || t.queue == s.queue)
    ensures Work(t) == Work(s) && Points(t) == Points(s)
  {}

  /** Ruby takes one step, after the end of a spin. */
  lemma RubyAdvances(s: State) returns (acts: seq<Action>, t: State)
    requires Good(s) && s.ruby != Idle
    ensures Leads(s, acts, t) && Good(t) && t.auth == s.auth && (s.closed || s.ruby.CloseSwap? ==> t.closed)
    ensures Work(s) >= 0
    ensures || CallStage(t.ruby) < CallStage(s.ruby)
            || (CallStage(t.ruby) == CallStage(s.ruby) && Work(t) < Work(s))
            || (CallStage(t.ruby) == CallStage(s.ruby) && Work(t) == Work(s) && Points(t) < Points(s))
    ensures forall a :: a in acts ==> Inner(a)
  {
    hide Good, Next, Enabled, Work, Points, CallStage, Spins, Faithful;
    WorkIsSound(s);
    var m;
    acts, m := SpinEnds(s);
    if Spins(s) { SameWork(s, m); }
    t := RubyGoes(m);
    Prepend(m, RubyActs(false), [], t);
    Append(s, acts, m, [RubyActs(false)], t);
    acts := acts + [RubyActs(false)];
  }

  /** Whatever call Ruby is in, it can come to its end without a new message, a new
      call, or the clock. */
  lemma {:induction false} CallEnds(s: State) returns (acts: seq<Action>, t: State)
    requires Good(s)
    ensures Leads(s, acts, t) && Good(t) && t.ruby == Idle && t.auth == s.auth
    ensures s.closed || s.ruby.CloseSwap? ==> t.closed
    ensures forall a :: a in acts ==> Inner(a)
    decreases CallStage(s.ruby), Work(s), Points(s)
  {
    if s.ruby == Idle {
      acts, t := [], s;
    } else {
      hide Good, Work, Points, CallStage;
      var first, m := RubyAdvances(s);
      var rest;
      rest, t := CallEnds(m);
      Append(s, first, m, rest, t);
      acts := first + rest;
    }
  }

  // -------------------------------------------------------------- what that gives

  /** Every callback that has not returned, the watchdog until it has deleted the
      client, and Ruby inside a call can take their next step in every reachable
      state: the side conditions of the step functions exclude nothing. */
  lemma NobodyIsStuck(t: State)
    requires Reachable(t)
    ensures forall m :: 0 <= m < |t.pcs| && t.pcs[m] != Done ==> CallbackReady(t, m)
    ensures t.wd != Gone ==> exists k :: WatchdogReady(t, k)
    ensures t.ruby != Idle ==> RubyReady(t)
  {
    Runs.ReachableIsGood(t);
    hide Good, Reachable, CallbackReady, WatchdogReady, RubyReady;
    forall m | 0 <= m < |t.pcs| && t.pcs[m] != Done ensures CallbackReady(t, m) {
      InsideIsNotDone(t, m);
      CallbackIsReady(t, m);
    }
    if t.wd != Gone { var k := WatchdogIsReady(t); }
    if t.ruby != Idle { RubyIsReady(t); }
  }

  /** From every reachable state, some steps of the callbacks, the watchdog and Ruby
      end the call that Ruby is in: whatever Ruby waits for, no one who has to act
      first waits for Ruby. */
  lemma EveryCallCanEnd(s: State) returns (acts: seq<Action>, t: State)
    requires Reachable(s)
    ensures Leads(s, acts, t) && Reachable(t) && t.ruby == Idle
    ensures forall a :: a in acts ==> Inner(a)
  {
    Runs.ReachableIsGood(s);
    hide Good, Reachable;
    acts, t := CallEnds(s);
    LeadsIsReachable(s, acts, t);
  }

  lemma IdleAndClosedIsFinished(s: State)
    requires Good(s) && s.ruby == Idle
    ensures s.closed <==> s.finished
  {}

  /** The client is closed, if need be after the call that Ruby is in. */
  lemma CloseEnds(s: State) returns (acts: seq<Action>, t: State)
    requires Good(s)
    ensures Leads(s, acts, t) && Good(t) && t.ruby == Idle && t.finished && t.auth == s.auth
    ensures forall a :: a in acts ==> Inner(a) || a == RubyCalls(CmdClose)
  {
    hide Good, Next, Enabled;
    var first, m := CallEnds(s);
    IdleAndClosedIsFinished(m);
    if m.finished {
      acts, t := first, m;
    } else {
      var n := CloseBegins(m);
      var rest;
      rest, t := CallEnds(n);
      IdleAndClosedIsFinished(t);
      Prepend(m, RubyCalls(CmdClose), rest, t);
      Append(s, first, m, [RubyCalls(CmdClose)] + rest, t);
      acts := first + ([RubyCalls(CmdClose)] + rest);
    }
  }

  lemma CloseBegins(s: State) returns (t: State)
    requires Good(s) && s.ruby == Idle
    ensures Enabled(s, RubyCalls(CmdClose)) && t == Next(s, RubyCalls(CmdClose))
    ensures Good(t) && t.ruby == CloseSwap && t.auth == s.auth
  {
    hide Good;
    t := Begin(s, CmdClose);
    GoodShape(s);
    assert Enabled(s, RubyCalls(CmdClose));
    Runs.NextKeeps(s, RubyCalls(CmdClose));
  }

  /** Whatever has happened, the client can still be closed and every AUTH message
      that has arrived can still get its one response: from every reachable state
      some continuation, without a new message and without the clock, ends with the
      close finished, all callbacks returned, and each AUTH message answered exactly
      once. */
  lemma EveryMessageCanBeAnswered(s: State) returns (acts: seq<Action>, t: State)
    requires Reachable(s)
    ensures Leads(s, acts, t) && Reachable(t) && t.finished && t.active == 0 && t.auth == s.auth
    ensures |t.responses| == |t.pcs| == |s.auth|
    ensures forall m :: 0 <= m < |s.auth| ==> t.pcs[m] == Done && t.responses[m] == if s.auth[m] then 1 else 0
    ensures forall a :: a in acts ==> Inner(a) || a == RubyCalls(CmdClose)
  {
    Runs.ReachableIsGood(s);
    hide Good, Reachable;
    var first, n := CloseEnds(s);
    var rest;
    rest, t := CallbacksReturn(n);
    IdleAndClosedIsFinished(n);
    IdleAndClosedIsFinished(t);
    Append(s, first, n, rest, t);
    acts := first + rest;
    LeadsIsReachable(s, acts, t);
    AllReturned(t);
    forall m | 0 <= m < |s.auth| ensures t.responses[m] == if s.auth[m] then 1 else 0 {
      Theorems.AnsweredOnceWhenClosed(t, m);
      Theorems.NeverAnsweredTwice(t, m);
    }
  }

  lemma AllReturned(t: State)
    requires Good(t) && t.active == 0
    ensures |t.responses| == |t.pcs| == |t.auth| && forall m :: 0 <= m < |t.pcs| ==> t.pcs[m] == Done
  {
    assert t.inside == {};
    forall m | 0 <= m < |t.pcs| ensures t.pcs[m] == Done { assert Lifecycle.InsideOk(t, m); }
  }
}
