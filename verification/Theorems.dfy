/** What the invariant means: the claims made for the delivery core, for every
    reachable state of every run. */
module Theorems {
  import opened Rings
  import opened Words
  import opened Protocol
  import opened Structure
  import Handshake
  import Tokens
  import Lifecycle
  import Ownership
  import Arming
  import Wakeup
  import Counters
  import opened Steps
  import Runs
  import DeadlineHeap

  // -------------------------------------------------------------- exactly-once answers

  /** No message is ever answered twice, and only AUTH messages are answered. */
  lemma NeverAnsweredTwice(t: State, m: nat)
    requires Reachable(t) && m < |t.pcs|
    ensures Shape(t) && t.responses[m] <= if t.auth[m] then 1 else 0
  {
    hide Reachable;
    Runs.ReachableIsGood(t);
    assert Tokens.MsgToken(t, m);
  }

  lemma WhereIsTheToken(t: State, m: nat)
    requires Good(t) && m < Count(t)
    ensures Tokens.MsgToken(t, m) && PcOk(t, m)
    ensures var token := t.tokens[m];
      || token == NoToken || token == Fresh || token == InSlot || token == Spent
      || token == InHand(ByCallback) || token == InHand(ByWatchdog) || token == InHand(ByRuby)
  {
    var token := t.tokens[m];
    if token.InHand? {
      match token.actor
      case ByCallback =>
      case ByWatchdog =>
      case ByRuby =>
    }
  }

  /** Once the close has finished, every AUTH message that was accepted,
      dropped or refused and answered by its callback has exactly one response. */
  lemma AnsweredOnceWhenClosed(t: State, m: nat)
    requires Reachable(t) && t.finished && m < |t.pcs|
    ensures Shape(t)
    ensures t.auth[m] ==> t.responses[m] == if t.pcs[m] == Check || t.pcs[m] == Refuse then 0 else 1
  {
    hide Reachable;
    Runs.ReachableIsGood(t);
    assert Tokens.MsgToken(t, m) && PcOk(t, m);
    WhereIsTheToken(t, m);
    if t.fates[m].Accepted? { assert Tokens.SlotToken(t, MySlot(t, m)) && FateOk(t, m); }
  }

  /** An AUTH message that its callback has dealt with is answered, or it waits
      in its slot with the answer open, or exactly one actor is about to answer it. */
  lemma NoAnswerForgotten(t: State, m: nat)
    requires Reachable(t) && m < |t.pcs| && t.pcs[m] == Done
    ensures Shape(t)
    ensures t.auth[m] ==>
            || t.responses[m] == 1
            || (t.fates[m].Accepted? && t.slots[MySlot(t, m)].answer == Pending
                && t.slots[MySlot(t, m)].message == m && t.slots[MySlot(t, m)].position == t.fates[m].pos)
            || (Tokens.WatchdogSends(t, m) != Tokens.RubySends(t, m))
  {
    hide Reachable;
    Runs.ReachableIsGood(t);
    WhereIsTheToken(t, m);
    if t.tokens[m] == InSlot {
      assert Tokens.SlotToken(t, MySlot(t, m)) && Handshake.SlotOk(t, MySlot(t, m)) && FateOk(t, m);
    }
  }

  /** Whoever is about to answer a message from its slot, the message has claimed that slot. */
  lemma SendersAnswerClaimants(t: State, m: nat)
    requires Core(t) && m < Count(t) && (Tokens.WatchdogSends(t, m) || Tokens.RubySends(t, m))
    ensures t.fates[m].Accepted?
  {
    Tokens.SendersAreOld(t);
    var i := if Tokens.WatchdogSends(t, m) then t.wd.entry.slot else t.ruby.slot;
    assert Handshake.SlotOk(t, i) && ClaimOk(t, t.queue.cells[i].cur);
  }

  lemma TurnedAwayIsAnswered(t: State, m: nat)
    requires Good(t) && m < Count(t) && t.pcs[m] == Done && !t.fates[m].Accepted?
    ensures t.fates[m] == Dropped || t.fates[m] == Refused
    ensures t.responses[m] == if t.auth[m] then 1 else 0
  {
    assert Tokens.MsgToken(t, m) && PcOk(t, m);
    WhereIsTheToken(t, m);
    if Tokens.WatchdogSends(t, m) || Tokens.RubySends(t, m) { SendersAnswerClaimants(t, m); }
  }

  /** A message that found the ring full, or the client closed, has had its
      default response by the time its callback returns, and is not kept. */
  lemma OverflowIsAnswered(t: State, m: nat)
    requires Reachable(t) && m < |t.pcs| && t.pcs[m] == Done
    ensures Shape(t)
    ensures !t.fates[m].Accepted? ==>
      && (t.fates[m] == Dropped || t.fates[m] == Refused)
      && t.responses[m] == (if t.auth[m] then 1 else 0)
      && t.releases[m] == (if t.fates[m] == Dropped then 1 else 0)
  {
    hide Reachable;
    Runs.ReachableIsGood(t);
    if !t.fates[m].Accepted? {
      TurnedAwayIsAnswered(t, m);
      assert Ownership.MsgOwner(t, m);
    }
  }

  // -------------------------------------------------------------- reuse safety

  /** When the watchdog sends, it answers the incarnation it was armed for:
      the slot still holds the message that claimed the entry's position, the
      message is AUTH, unanswered, and its retain has not been released. */
  lemma WatchdogAnswersItsOwn(t: State)
    requires Reachable(t) && t.wd.Send?
    ensures var e := t.wd.entry;
      && Shape(t) && e.slot < Cap(t) && e.slot == At(e.position, Cap(t))
      && e.position < |t.claims| && t.slots[e.slot].position == e.position
      && var m := t.slots[e.slot].message;
      && m == t.claims[e.position] && m < Count(t) && t.auth[m]
      && t.armed[m].ArmedAt? && t.fires[m] == e.fireAt
      && t.responses[m] == 0 && t.releases[m] == 0
  {
    hide Reachable;
    Runs.ReachableIsGood(t);
    var i := t.wd.entry.slot;
    assert Handshake.SlotOk(t, i);
    var m := t.slots[i].message;
    assert Tokens.MsgToken(t, m) && Ownership.MsgOwner(t, m);
    WatchedIsRetained(t, i);
  }

  /** The watchdog never works on an entry, let alone answers it, before the
      entry's fire time. */
  lemma NeverEarly(t: State)
    requires Reachable(t) && InDue(t.wd)
    ensures t.wd.entry.fireAt <= t.clock
  {
    hide Reachable;
    Runs.ReachableIsGood(t);
  }

  /** While the watchdog is confirmed on a slot, the slot's message stays retained. */
  lemma WatchedIsRetained(t: State, i: nat)
    requires Good(t) && Handshake.Confirmed(t.wd) && i == t.wd.entry.slot
    ensures i < Cap(t) && Busy(t, i)
    ensures t.owners[Occupant(t, i)] != Nobody
  {
    var m := Occupant(t, i);
    assert Ownership.SlotOwner(t, i) && CellOk(t.queue, i);
    assert Lifecycle.CloseRank(t.ruby) < 4;
  }

  /** The plain stores to a slot are exclusive: while a callback makes them, no
      other callback works on the slot, the watchdog does not read it as a
      confirmed reader, and Ruby holds it neither in hand nor in a wrapper. */
  lemma PlainStoresAreExclusive(t: State, m: nat)
    requires Reachable(t) && m < |t.pcs| && t.pcs[m].Fill?
    ensures Shape(t) && t.fates[m].Accepted?
    ensures forall j :: 0 <= j < Count(t) && j != m && NeedsSlot(t.pcs[j]) ==>
      t.fates[j].Accepted? && MySlot(t, j) != MySlot(t, m)
    ensures Handshake.Confirmed(t.wd) ==> t.wd.entry.slot != MySlot(t, m)
    ensures UsesSlot(t.ruby) ==> t.ruby.slot != MySlot(t, m)
    ensures !Handshake.InHand(t.ruby, MySlot(t, m))
    ensures forall w :: w in t.wrappers && t.wrappers[w].valid && !Invalidates(t.ruby, w) ==> t.wrappers[w].slot != MySlot(t, m)
  {
    hide Reachable;
    Runs.ReachableIsGood(t);
    assert PcOk(t, m) && BuildOk(t, m);
    forall j | 0 <= j < Count(t) && j != m && NeedsSlot(t.pcs[j])
      ensures t.fates[j].Accepted? && MySlot(t, j) != MySlot(t, m)
    {
      assert PcOk(t, j) && BuildOk(t, j) && FateOk(t, j) && FateOk(t, m);
    }
    RubyAvoidsClaimed(t, MySlot(t, m));
    forall w | w in t.wrappers && t.wrappers[w].valid && !Invalidates(t.ruby, w)
      ensures t.wrappers[w].slot != MySlot(t, m)
    {
      assert Handshake.WrapperOk(t, w);
    }
  }

  /** The same for the plain stores to a request cell: while a callback makes them, no
      other callback writes or publishes that cell, and the watchdog neither takes it
      nor reads it; and what is stored is the callback's own entry. */
  lemma RequestStoresAreExclusive(t: State, m: nat)
    requires Reachable(t) && m < |t.pcs| && t.pcs[m].ArmFill?
    ensures Shape(t) && t.fates[m].Accepted?
    ensures forall j :: 0 <= j < Count(t) && j != m && Arming.Requesting(t.pcs[j]) ==>
      At(t.pcs[j].at, Cap(t)) != At(t.pcs[m].at, Cap(t))
    ensures t.wd.PopTake? ==> At(t.requests.deq, Cap(t)) != At(t.pcs[m].at, Cap(t))
    ensures t.wd.PopFree? ==> At(t.wd.at, Cap(t)) != At(t.pcs[m].at, Cap(t))
    ensures var d := t.slots[MySlot(t, m)]; d.position == t.fates[m].pos && d.message == m && d.fireAt == t.fires[m]
  {
    hide Reachable;
    Runs.ReachableIsGood(t);
    assert PcOk(t, m) && BuildOk(t, m) && Arming.ArmedOk(t, m) && FateOk(t, m) && Handshake.SlotOk(t, MySlot(t, m));
    forall j | 0 <= j < Count(t) && j != m && Arming.Requesting(t.pcs[j])
      ensures At(t.pcs[j].at, Cap(t)) != At(t.pcs[m].at, Cap(t))
    {
      Arming.RequestersDiffer(t, m, j);
    }
    DequeueRead(t.requests, t.requests.deq);
  }

  lemma RubyAvoidsClaimed(t: State, i: nat)
    requires Core(t) && i < Cap(t) && t.queue.cells[i].phase == Claimed && t.stages[i] == Blank
    ensures UsesSlot(t.ruby) ==> t.ruby.slot != i
  {
    if UsesSlot(t.ruby) && HasJob(t.ruby) && (t.ruby.job.Respond? || t.ruby.job.Release?) {
      assert Handshake.WrapperOk(t, t.ruby.job.w);
    }
  }

  // -------------------------------------------------------------- the watchdog's knowledge

  /** No message waiting for an answer is lost.  If a slot is occupied and
      pending, then its callback is still arming it or about to answer it, or
      the watchdog knows it: its request is published in the ring, or the heap
      holds exactly its entry, or the watchdog has it in its hand. */
  lemma NoPendingMessageLost(t: State, i: nat)
    requires Reachable(t) && i < |t.slots| && t.slots[i].occupied && t.slots[i].answer == Pending
    ensures Good(t) && Busy(t, i)
    ensures var m := Occupant(t, i);
      || Arming.StillArming(t.pcs[m]) || Arming.Requesting(t.pcs[m])
      || (t.armed[m].ArmedAt? && WatchdogKnows(t, m, t.armed[m].at))
  {
    hide Reachable;
    Runs.ReachableIsGood(t);
    assert Handshake.SlotOk(t, i) && Tokens.SlotToken(t, i) && CellOk(t.queue, i);
    var m := Occupant(t, i);
    assert Arming.Kept(t, m);
    if t.armed[m].ArmedAt? && !Arming.Requesting(t.pcs[m]) { ArmedIsKept(t, m); }
  }

  /** Request q, made for message m, is published in the ring and carries m's entry. */
  ghost predicate InRing(t: State, m: nat, q: nat)
    requires Shape(t) && m < Count(t)
  {
    && t.fates[m].Accepted? && t.requests.deq <= q < t.requests.enq
    && var c := t.requests.cells[At(q, Cap(t))];
    && c.cur == q && c.phase == Published && t.reqs[At(q, Cap(t))] == Arming.EntryFor(t, m)
  }

  /** Request q, made for message m, is in the ring, in the heap or in the watchdog's hand. */
  ghost predicate WatchdogKnows(t: State, m: nat, q: nat)
    requires Shape(t) && m < Count(t)
  {
    && t.fates[m].Accepted?
    && (|| InRing(t, m, q)
        || (MySlot(t, m) in t.heap && t.heap[MySlot(t, m)] == Arming.EntryFor(t, m))
        || Arming.InWatchdogHand(t, t.fates[m].pos, q))
  }

  lemma ArmedIsKept(t: State, m: nat)
    requires Good(t) && m < Count(t) && t.armed[m].ArmedAt? && !Arming.Requesting(t.pcs[m]) && t.tokens[m] == InSlot
    ensures WatchdogKnows(t, m, t.armed[m].at)
  {
    var q := t.armed[m].at;
    assert Arming.ArmedOk(t, m) && Arming.Kept(t, m) && FateOk(t, m);
    if t.requests.deq <= q {
      var j := At(q, Cap(t));
      assert Stands(t.requests, q);
      assert CellOk(t.requests, j) && Arming.RequestOk(t, j) && Arming.ArmOk(t, q);
    } else if MySlot(t, m) in t.heap {
      assert Arming.HeapOk(t, MySlot(t, m));
    }
  }

  /** Requests of one slot are popped in strictly increasing position. */
  lemma PopsAreInOrder(t: State, q: nat, r: nat)
    requires Reachable(t) && q < r < |t.arms| && Shape(t) && At(t.arms[q], Cap(t)) == At(t.arms[r], Cap(t))
    ensures t.arms[q] < t.arms[r]
  {
    hide Reachable;
    Runs.ReachableIsGood(t);
    assert Arming.Later(t, q, r);
  }

  /** heap_set never replaces a newer entry by an older one. */
  lemma ReplacedIsOlder(t: State)
    requires Reachable(t) && t.wd.HeapSet? && t.wd.entry.slot in t.heap
    ensures t.heap[t.wd.entry.slot].position < t.wd.entry.position
  {
    hide Reachable;
    Runs.ReachableIsGood(t);
    Arming.HeapSetIsNewer(t);
  }

  /** A pass ends with nothing due in the heap. */
  lemma PassLeavesNothingDue(t: State, k: nat)
    requires CanScan(t, k) && DoScan(t, k).wd == Sleep
    ensures forall j :: j in t.heap ==> t.heap[j].fireAt > t.wd.now
  {
    if t.heap != map[] { assert t.heap[k].fireAt > t.wd.now; }
  }

  /** At the end of a pass nothing in the heap is due.  A slot that is occupied,
      pending and due is still being armed by its callback, or its request waits in
      the ring, published and carrying its entry. */
  lemma DueIsInTheRing(t: State, k: nat, i: nat)
    requires Reachable(t) && CanScan(t, k) && DoScan(t, k).wd == Sleep && i < |t.slots|
    ensures Good(t) && forall j :: j in t.heap ==> t.heap[j].fireAt > t.wd.now
    ensures t.slots[i].occupied && t.slots[i].answer == Pending && t.slots[i].fireAt <= t.wd.now ==>
      && Busy(t, i)
      && var m := Occupant(t, i);
      || Arming.StillArming(t.pcs[m]) || Arming.Requesting(t.pcs[m])
      || (t.armed[m].ArmedAt? && InRing(t, m, t.armed[m].at))
  {
    PassLeavesNothingDue(t, k);
    hide CanScan, DoScan;
    if t.slots[i].occupied && t.slots[i].answer == Pending && t.slots[i].fireAt <= t.wd.now {
      NoPendingMessageLost(t, i);
      hide Reachable;
      DueIsNotInTheHeap(t, i);
    } else {
      Runs.ReachableIsGood(t);
    }
  }

  lemma DueIsNotInTheHeap(t: State, i: nat)
    requires Good(t) && t.wd.Scan? && (forall j :: j in t.heap ==> t.heap[j].fireAt > t.wd.now)
    requires i < Cap(t) && Busy(t, i) && t.slots[i].occupied && t.slots[i].fireAt <= t.wd.now
    ensures var m := Occupant(t, i);
      t.armed[m].ArmedAt? && WatchdogKnows(t, m, t.armed[m].at) ==> InRing(t, m, t.armed[m].at)
  {
    assert Handshake.SlotOk(t, i);
  }

  lemma HeapSlots(t: State)
    requires Good(t)
    ensures Shape(t) && (forall k :: k in t.heap ==> k < Cap(t)) && (t.wd.HeapSet? ==> t.wd.entry.slot < Cap(t))
  {
    forall k | k in t.heap ensures k < Cap(t) { assert Arming.HeapOk(t, k); }
  }

  /** The heap never overflows: when heap_set is about to insert, there is room,
      so its early return is unreachable. */
  lemma HeapHasRoom(t: State)
    requires Reachable(t)
    ensures Shape(t) && |t.heap| <= Cap(t)
    ensures t.wd.HeapSet? && t.wd.entry.slot !in t.heap ==> |t.heap| < Cap(t)
  {
    hide Reachable, Good;
    Runs.ReachableIsGood(t);
    HeapSlots(t);
    DeadlineHeap.KeysBelow(t.heap.Keys, Cap(t));
    if t.wd.HeapSet? && t.wd.entry.slot !in t.heap {
      DeadlineHeap.KeysBelow(t.heap.Keys + {t.wd.entry.slot}, Cap(t));
    }
  }

  // -------------------------------------------------------------- close

  /** When es_delete_client is reached, everything has come to rest: no
      callback is past the closed check, the watchdog loop has exited, no slot
      is pending, the ring is empty, and every slot that is not free belongs
      to a valid Ruby wrapper. */
  lemma DeleteIsQuiescent(t: State)
    requires Reachable(t) && t.wd == Delete
    ensures Shape(t) && t.stopped && t.closed && !t.running
    ensures forall m :: 0 <= m < Count(t) ==> !Lifecycle.Accepting(t.pcs[m])
    ensures forall i :: 0 <= i < Cap(t) ==> t.slots[i].answer != Pending
    ensures t.queue.enq == t.queue.deq
    ensures forall i :: 0 <= i < Cap(t) && Busy(t, i) ==>
      var w := t.queue.cells[i].cur; w in t.wrappers && t.wrappers[w] == Wrapper(i, true, t.wrappers[w].held)
  {
    hide Reachable;
    Runs.ReachableIsGood(t);
    assert t.ruby == Join;
    forall i | 0 <= i < Cap(t) && Busy(t, i)
      ensures var w := t.queue.cells[i].cur; w in t.wrappers && t.wrappers[w] == Wrapper(i, true, t.wrappers[w].held)
    {
      assert Handshake.HeldOk(t, i) && CellOk(t.queue, i);
      assert Handshake.WrapperOk(t, t.queue.cells[i].cur);
    }
  }

  // -------------------------------------------------------------- wakeup

  /** No wakeup is lost: outside client_drain, if a queued item's producer has
      got past esrb_notify, the pipe holds a byte or someone is about to write
      one, unless a drain has raised since the last one that got through. */
  lemma NoLostWakeup(t: State, p: nat)
    requires Reachable(t) && t.queue.deq <= p < t.queue.enq
    requires !Wakeup.Draining(t.ruby) && !Wakeup.WillNotify(t.ruby, p)
    ensures p < |t.claims| && t.claims[p] < |t.pcs|
    ensures Wakeup.Announced(t.pcs[t.claims[p]]) ==> t.notified && (t.pipe > 0 || Wakeup.SomeoneWrites(t) || t.broken)
  {
    hide Reachable;
    Runs.ReachableIsGood(t);
    assert ClaimOk(t, p) && Wakeup.Seen(t, p);
  }

  /** The flag is raised, the pipe is empty, and no one is about to write a byte or
      to clear the flag: nothing tells Ruby about what is in the queue. */
  ghost predicate Lost(s: State) {
    s.notified && s.pipe == 0 && !Wakeup.SomeoneWrites(s) && !Wakeup.Draining(s.ruby)
  }

  lemma AnnouncedIsRaised(s: State, p: nat)
    requires Reachable(s) && !Wakeup.Emptied(s.ruby) && !Wakeup.WillNotify(s.ruby, p)
    requires s.queue.deq <= p < |s.claims| && s.claims[p] < |s.pcs| && Wakeup.Announced(s.pcs[s.claims[p]])
    ensures Shape(s) && s.notified
  {
    hide Reachable;
    Runs.ReachableIsGood(s);
    assert Wakeup.Seen(s, p);
  }

  lemma MakingStep(s: State, fails: bool)
    requires Shape(s) && (s.ruby.DrainEmpty? || s.ruby.MakeArray?)
    ensures RubyReady(s)
    ensures RubyStep(s, fails) == if s.ruby.DrainEmpty? then DoDrainEmpty(s) else DoMakeArray(s, fails)
    ensures Follows(s, RubyActs(fails), RubyStep(s, fails))
  {
    hide DoDrainEmpty, DoMakeArray, DoDeqLoad, DoDeqRead, DoDeqCas, DoWrap, DoCountDelivered, DoClear, DoDepthEnq;
    hide DoDepthDeq, DoRubyNotify, DoRubyWrite, DoCloseSwap, DoCloseSpin, DoCloseStop, DoCloseAwait, DoSweepRead;
    hide DoDeleteReady, DoJoin, DoRespondCheck, DoAnswerCas, DoAnswerSend, DoDisarmStore, DoDisarmSpin;
    hide DoReleaseMessage, DoStoreSequence, DoInvalidate;
  }

  /** A drain that has emptied the pipe raises exactly if there is no memory for its
      array, or its maximum is no size for one; and with an announced item in the
      queue, the wakeup is lost exactly then, unless the pipe holds a later byte or
      another actor is still about to write one. */
  lemma DrainRaisesExactly(s: State, p: nat, fails: bool)
    requires Reachable(s) && s.ruby.MakeArray?
    requires s.queue.deq <= p < |s.claims| && s.claims[p] < |s.pcs| && Wakeup.Announced(s.pcs[s.claims[p]])
    ensures RubyReady(s)
    ensures var t := RubyStep(s, fails);
      && t == s.(ruby := t.ruby, broken := t.broken)
      && (t.ruby == Idle <==> fails || !IsArraySize(s.ruby.maximum))
      && (Lost(t) <==> (fails || !IsArraySize(s.ruby.maximum)) && s.pipe == 0 && !Wakeup.SomeoneWrites(s))
  {
    hide Reachable, RubyStep;
    AnnouncedIsRaised(s, p);
    MakingStep(s, fails);
    assert Wakeup.CallbackWrites(DoMakeArray(s, fails)) <==> Wakeup.CallbackWrites(s);
  }

  /** Ruby reads the pipe until it is empty. */
  lemma {:induction false} DrainToEmpty(s: State) returns (t: State)
    requires Reachable(s) && Shape(s) && s.ruby.DrainEmpty?
    ensures Reachable(t) && t == s.(pipe := 0, ruby := MakeArray(s.ruby.maximum))
    decreases s.pipe
  {
    var m := DoDrainEmpty(s);
    MakingStep(s, false);
    hide Reachable, Follows, Shape, RubyStep;
    Runs.FollowsIsReachable(s, RubyActs(false), m);
    if s.pipe == 0 {
      t := m;
    } else {
      assert m == s.(pipe := m.pipe);
      t := DrainToEmpty(m);
    }
  }

  /** Whenever an announced item is waiting, Ruby is free on an open client, and no
      one is about to write a byte, every drain whose maximum is a long leads to a
      state that differs only in the empty pipe, with the wakeup lost, if there is no
      memory for its array or its maximum is no size for one. */
  lemma RaisingDrainLosesWakeups(s: State, p: nat, maximum: int, fails: bool) returns (t: State)
    requires Reachable(s) && s.ruby == Idle && !s.closed && !Wakeup.SomeoneWrites(s)
    requires IsLong(maximum) && (fails || !IsArraySize(maximum))
    requires s.queue.deq <= p < |s.claims| && s.claims[p] < |s.pcs| && Wakeup.Announced(s.pcs[s.claims[p]])
    ensures Reachable(t) && t == s.(pipe := 0, broken := true) && Lost(t)
  {
    var c := Begin(s, CmdDrain(maximum));
    hide Reachable, RubyStep;
    AnnouncedIsRaised(s, p);
    Runs.FollowsIsReachable(s, RubyCalls(CmdDrain(maximum)), c);
    var e := DrainToEmpty(c);
    MakingStep(e, fails);
    t := DoMakeArray(e, fails);
    Runs.FollowsIsReachable(e, RubyActs(fails), t);
    assert Wakeup.CallbackWrites(t) <==> Wakeup.CallbackWrites(s);
  }

  // -------------------------------------------------------------- the ring

  /** Every slot is in exactly one phase, for one position that its index
      belongs to, and the sequence number alone tells both. */
  lemma PhaseOfEverySlot(t: State, i: nat)
    requires Reachable(t) && i < |t.slots|
    ensures Shape(t)
    ensures var c := t.queue.cells[i];
      && c.cur % Cap(t) == i
      && (c.phase == Free <==> t.queue.enq <= c.cur) && c.cur < t.queue.enq + Cap(t) && t.queue.enq <= c.cur + Cap(t)
      && Decode(c.sequence, i, t.queue.enq, t.queue.deq, Cap(t)) == (c.phase, c.cur)
    ensures t.queue.deq <= t.queue.enq <= t.queue.deq + Cap(t)
  {
    hide Reachable;
    Runs.ReachableIsGood(t);
    assert CellOk(t.queue, i);
    PhaseDecoded(t.queue, i);
    AtIsRemainder(t.queue.cells[i].cur, Cap(t));
  }

  /** The ring is a FIFO of claims: the messages taken out are those that
      claimed positions 0, 1, 2, ..., in that order, and every message claims
      at most one position. */
  lemma TakenInClaimOrder(t: State)
    requires Reachable(t)
    ensures t.queue.deq <= |t.claims| == t.queue.enq && t.taken == t.claims[..t.queue.deq]
    ensures forall p, q :: 0 <= p < q < |t.claims| ==> t.claims[p] != t.claims[q]
  {
    hide Reachable;
    Runs.ReachableIsGood(t);
    forall p | 0 <= p < |t.taken| ensures t.taken[p] == t.claims[p] { assert Ownership.TakenOk(t, p); }
    forall p, q | 0 <= p < q < |t.claims| ensures t.claims[p] != t.claims[q] {
      assert ClaimOk(t, p) && ClaimOk(t, q);
    }
  }

  /** A valid wrapper shows the message that claimed its position, however
      other slots have been released in the meantime. */
  lemma WrapperShowsItsMessage(t: State, w: nat)
    requires Reachable(t) && w in t.wrappers && t.wrappers[w].valid && !Invalidates(t.ruby, w)
    ensures w < |t.claims| && t.wrappers[w].slot < |t.slots|
    ensures t.slots[t.wrappers[w].slot].message == t.claims[w] && t.slots[t.wrappers[w].slot].position == w
  {
    hide Reachable;
    Runs.ReachableIsGood(t);
    assert Handshake.WrapperOk(t, w);
    var i := t.wrappers[w].slot;
    assert Handshake.SlotOk(t, i) && ClaimedOk(t, i);
  }

  /** A callback is told that the ring is full exactly when, at its sequence
      read, its position is the current one and the slot still belongs to the
      previous lap.  A stale position can only make it try again. */
  lemma FullIsFull(t: State, m: nat)
    requires Reachable(t) && m < |t.pcs| && t.pcs[m].EnqRead?
    ensures Shape(t)
    ensures var c := t.queue.cells[At(t.queue.enq, Cap(t))];
      t.queue.cells[At(t.pcs[m].pos, Cap(t))].sequence < t.pcs[m].pos <==>
        t.pcs[m].pos == t.queue.enq && c.phase != Free && c.cur + Cap(t) == t.queue.enq
  {
    hide Reachable;
    Runs.ReachableIsGood(t);
    assert PcOk(t, m);
    EnqueueRead(t.queue, t.pcs[m].pos);
  }

  /** The same for the request ring: a callback is told that it is full, and answers
      its message itself, exactly when at its sequence read its position is the current
      one and the cell still belongs to a request of the previous lap. */
  lemma RequestsFullIsFull(t: State, m: nat)
    requires Reachable(t) && m < |t.pcs| && t.pcs[m].ArmRead?
    ensures Shape(t)
    ensures var c := t.requests.cells[At(t.requests.enq, Cap(t))];
      t.requests.cells[At(t.pcs[m].at, Cap(t))].sequence < t.pcs[m].at <==>
        t.pcs[m].at == t.requests.enq && c.phase != Free && c.cur + Cap(t) == t.requests.enq
  {
    hide Reachable;
    Runs.ReachableIsGood(t);
    assert PcOk(t, m);
    EnqueueRead(t.requests, t.pcs[m].at);
  }

  /** A consumer is told that the ring is empty exactly when, at its sequence
      read, its position is the current one and nothing is published there. */
  lemma EmptyIsEmpty(t: State)
    requires Reachable(t) && t.ruby.DeqRead?
    ensures Shape(t)
    ensures var c := t.queue.cells[At(t.queue.deq, Cap(t))];
      t.queue.cells[At(t.ruby.pos, Cap(t))].sequence < t.ruby.pos + 1 <==>
        t.ruby.pos == t.queue.deq && !(c.cur == t.queue.deq && c.phase == Published)
  {
    hide Reachable;
    Runs.ReachableIsGood(t);
    DequeueRead(t.queue, t.ruby.pos);
  }

  // -------------------------------------------------------------- ownership

  /** The message is published and waits in the ring. */
  ghost predicate QueueOwns(t: State, m: nat)
    requires Shape(t) && m < Count(t)
  {
    t.fates[m].Accepted? && t.queue.cells[MySlot(t, m)] == Cell(t.fates[m].pos + 1, t.fates[m].pos, Published)
  }

  /** A valid wrapper, not at the end of its release, was made for the message. */
  ghost predicate WrapperOwns(t: State, m: nat)
    requires Shape(t) && m < Count(t)
  {
    t.fates[m].Accepted? && var w := t.fates[m].pos;
      w in t.wrappers && t.wrappers[w].valid && !Invalidates(t.ruby, w)
  }

  /** Ruby has dequeued the message, to wrap it or to discard it. */
  ghost predicate HandOwns(t: State, m: nat)
    requires Shape(t) && m < Count(t)
  {
    t.fates[m].Accepted? && t.queue.cells[MySlot(t, m)].cur == t.fates[m].pos && Handshake.InHand(t.ruby, MySlot(t, m))
  }

  predicate ExactlyOne(a: bool, b: bool, c: bool, d: bool) {
    (if a then 1 else 0) + (if b then 1 else 0) + (if c then 1 else 0) + (if d then 1 else 0) == 1
  }

  /** A retained message is released at most once, and until then exactly one
      owner is responsible for it: its callback, the queue, its wrapper, or Ruby
      with the slot in its hand.  Callback and queue never own a released message. */
  lemma OneOwner(t: State, m: nat)
    requires Reachable(t) && m < |t.pcs|
    ensures Shape(t) && t.releases[m] <= 1
    ensures t.releases[m] == 1 ==> !Ownership.Unretained(t.pcs[m]) && t.fates[m] != Refused
    ensures t.releases[m] == 1 ==> !Ownership.CallbackOwns(t.pcs[m]) && !QueueOwns(t, m)
    ensures !Ownership.Unretained(t.pcs[m]) && t.fates[m] != Refused && t.releases[m] == 0 ==>
      ExactlyOne(Ownership.CallbackOwns(t.pcs[m]), QueueOwns(t, m), WrapperOwns(t, m), HandOwns(t, m))
  {
    hide Reachable;
    Runs.ReachableIsGood(t);
    assert Ownership.MsgOwner(t, m) && PcOk(t, m) && FateOk(t, m);
    if t.fates[m].Accepted? { AcceptedHasOneOwner(t, m); }
  }

  lemma AcceptedHasOneOwner(t: State, m: nat)
    requires Good(t) && m < Count(t) && t.fates[m].Accepted?
    ensures t.owners[m] != Nobody ==>
      ExactlyOne(Ownership.CallbackOwns(t.pcs[m]), QueueOwns(t, m), WrapperOwns(t, m), HandOwns(t, m))
    ensures t.owners[m] == Nobody ==> !QueueOwns(t, m)
  {
    var i, w := MySlot(t, m), t.fates[m].pos;
    assert Ownership.MsgOwner(t, m) && PcOk(t, m) && FateOk(t, m) && BuildOk(t, m);
    assert Ownership.SlotOwner(t, i) && CellOk(t.queue, i) && Handshake.HeldOk(t, i);
    if w in t.wrappers { assert Handshake.WrapperOk(t, w); }
  }

  /** When the client is closed and every wrapper is released, every retained
      message has been released exactly once. */
  lemma AllReleasedInTheEnd(t: State, m: nat)
    requires Reachable(t) && t.finished && t.ruby == Idle && m < |t.pcs|
    requires forall w :: w in t.wrappers ==> !t.wrappers[w].valid
    ensures Shape(t)
    ensures t.releases[m] == if Ownership.Unretained(t.pcs[m]) || t.fates[m] == Refused then 0 else 1
  {
    hide Reachable;
    Runs.ReachableIsGood(t);
    OneOwner(t, m);
    assert Ownership.MsgOwner(t, m) && PcOk(t, m);
    if t.fates[m].Accepted? {
      var i := MySlot(t, m);
      assert Handshake.HeldOk(t, i) && CellOk(t.queue, i);
    }
  }

  // -------------------------------------------------------------- statistics

  /** Between Ruby operations and with no callback inside, the callbacks that
      passed the closed check are accounted for exactly. */
  lemma CountsAddUp(t: State)
    requires Reachable(t) && t.active == 0 && Counters.InHand(t.ruby) == 0
    ensures t.passed == t.dropped + t.delivered + (t.queue.enq - t.queue.deq) + t.discarded
  {
    hide Reachable;
    Runs.ReachableIsGood(t);
    forall m ensures m !in t.deciding {
      assert Counters.DecidingOk(t, m) && Lifecycle.InsideOk(t, m);
    }
    assert t.inside == {};
    assert t.deciding == {};
  }

  /** `timeouts` counts the answers the watchdog has won, up to the one in progress. */
  lemma TimeoutsAreWins(t: State)
    requires Reachable(t)
    ensures t.wins == t.timeouts + (if t.wd.Send? || t.wd.CountTimeout? then 1 else 0)
  {
    hide Reachable;
    Runs.ReachableIsGood(t);
  }

  /** Every depth a publisher computes lies in 1..capacity, and the recorded
      maximum is the largest depth of any completed update.  The depth that
      client_drain reads lies in 0..capacity, although it reads the two
      positions one after the other: nobody else dequeues. */
  lemma DepthsInBounds(t: State, m: nat)
    requires Reachable(t) && m < |t.pcs|
    ensures t.pcs[m].PubMax? || t.pcs[m].PubCas? ==> 1 <= t.pcs[m].depth <= t.queue.cap
    ensures 0 <= t.depthMax == t.topDepth <= t.queue.cap
    ensures t.ruby.DepthDeq? ==> 0 <= t.ruby.enqueued - t.queue.deq <= t.queue.cap
  {
    hide Reachable;
    Runs.ReachableIsGood(t);
    assert Counters.DepthOk(t, m);
  }
}
