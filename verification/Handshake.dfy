/** Second layer: what the slots contain, and the handshake that keeps the
    watchdog and Ruby apart: `occupied`, `readers`, recheck against disarm and spin. */
module Handshake {
  import opened Rings
  import opened Protocol
  import opened Structure

  // -------------------------------------------------------------- classes of program counters

  /** Ruby has cleared `occupied` of slot i and not yet returned it. */
  predicate Disarmed(pc: RubyPc, i: nat) {
    match pc
    case DisarmSpin(j, _, _) => i == j
    case ReleaseMessage(j, job) => i == j && job.Release?
    case DisarmStore(j, job, again) => i == j && job.Release? && again
    case StoreSequence(j, _) => i == j
    case _ => false
  }

  /** Ruby has seen no reader on slot i after clearing `occupied`. */
  predicate PastSpin(pc: RubyPc, i: nat) {
    match pc
    case ReleaseMessage(j, job) => i == j && job.Release?
    case DisarmStore(j, job, again) => i == j && job.Release? && again
    case DisarmSpin(j, job, again) => i == j && job.Release? && again
    case StoreSequence(j, _) => i == j
    case _ => false
  }

  /** The watchdog counts as a reader of slot i. */
  predicate Reads(pc: WatchdogPc, i: nat) {
    InDue(pc) && !pc.Due? && !pc.Enter? && pc.entry.slot == i
  }

  /** The watchdog has found the slot occupied while being counted as a reader. */
  predicate Confirmed(pc: WatchdogPc) {
    pc.Compare? || Matched(pc)
  }

  /** It has also found the slot's position to be its entry's. */
  predicate Matched(pc: WatchdogPc) {
    pc.Decide? || pc.Send? || pc.CountTimeout? || pc.TimeoutNotify? || pc.TimeoutWrite?
  }

  /** Ruby has dequeued slot i and no wrapper owns it. */
  predicate InHand(pc: RubyPc, i: nat) {
    (Outer(pc).Wrap? && Outer(pc).slot == i) || (HasJob(pc) && pc.job.Discard? && pc.slot == i)
  }

  // -------------------------------------------------------------- predicates

  ghost predicate SlotOk(s: State, i: nat)
    requires Shape(s) && i < Cap(s)
  {
    var c, d := s.queue.cells[i], s.slots[i];
    && (d.occupied <==> c.phase != Free && s.stages[i] == Live && !Disarmed(s.ruby, i))
    && (c.phase != Free && s.stages[i] != Blank ==>
          && c.cur < |s.claims| && d.position == c.cur && d.message == s.claims[c.cur]
          && d.message < Count(s) && d.fireAt == s.fires[d.message])
  }

  ghost predicate ReaderOk(s: State, i: nat)
    requires i < |s.slots|
  {
    s.slots[i].readers == if Reads(s.wd, i) then 1 else 0
  }

  ghost predicate Slots(s: State) {
    && Shape(s)
    && (forall i :: 0 <= i < Cap(s) ==> SlotOk(s, i))
    && (forall i :: 0 <= i < Cap(s) ==> ReaderOk(s, i))
  }

  /** While the watchdog is confirmed, its slot cannot change hands. */
  ghost predicate Watch(s: State) {
    && Shape(s)
    && (InDue(s.wd) ==> s.wd.entry.slot < Cap(s))
    && (Confirmed(s.wd) ==>
          var i := s.wd.entry.slot;
          Busy(s, i) && s.stages[i] == Live && !PastSpin(s.ruby, i))
    && (Matched(s.wd) ==> s.slots[s.wd.entry.slot].position == s.wd.entry.position)
  }

  ghost predicate WrapperOk(s: State, w: nat)
    requires Shape(s) && w in s.wrappers
  {
    var x := s.wrappers[w];
    && x.slot == At(w, Cap(s)) && w < s.queue.deq
    && (x.valid && !Invalidates(s.ruby, w) ==>
          s.queue.cells[x.slot].cur == w && s.queue.cells[x.slot].phase == Held)
  }

  ghost predicate HeldOk(s: State, i: nat)
    requires Shape(s) && i < Cap(s)
  {
    s.queue.cells[i].phase == Held ==>
      var w := s.queue.cells[i].cur;
      (w in s.wrappers && s.wrappers[w].valid && !Invalidates(s.ruby, w)) || InHand(s.ruby, i)
  }

  /** Which jobs come to which points, and where a release goes on. */
  predicate JobOk(pc: RubyPc) {
    && (pc.RespondCheck? ==> pc.job.Respond? || pc.job.Release?)
    && (pc.DisarmStore? || pc.DisarmSpin? || pc.ReleaseMessage? || pc.StoreSequence? ==> pc.job.Release? || pc.job.Discard?)
    && (pc.DisarmStore? || pc.DisarmSpin? ==> pc.again || pc.job.Release?)
    && ((HasJob(pc) && pc.job.Release?) || pc.Invalidate? ==> Outer(pc) == Idle || Outer(pc).MakeArray? || Outer(pc).Wrap?)
  }

  /** What Ruby's program counter says about the slot it works on. */
  ghost predicate RubyOk(s: State)
    requires Shape(s)
  {
    var pc := s.ruby;
    && (pc.DeqRead? || pc.DeqCas? ==> pc.pos <= s.queue.deq)
    && (pc.DeqCas? && pc.pos == s.queue.deq ==> Takeable(s.queue))
    && JobOk(pc)
    && (UsesSlot(pc) || pc.RespondCheck? ==> pc.slot < Cap(s))
    && (HasJob(pc) && (pc.job.Respond? || pc.job.Release?) ==>
          pc.job.w in s.wrappers && s.wrappers[pc.job.w].valid && s.wrappers[pc.job.w].slot == pc.slot)
    && (Outer(pc).Wrap? ==> Outer(pc).slot < Cap(s))
    && (forall i :: 0 <= i < Cap(s) && InHand(pc, i) ==> s.queue.cells[i].phase == Held && s.queue.cells[i].cur !in s.wrappers)
    && (HasJob(pc) && pc.job.Sweep? ==> Busy(s, pc.slot) && s.stages[pc.slot] == Live)
    && (pc.Invalidate? ==> pc.w in s.wrappers)
  }

  ghost predicate Hand(s: State) {
    && Shape(s) && RubyOk(s)
    && (forall w :: w in s.wrappers ==> WrapperOk(s, w))
    && (forall i :: 0 <= i < Cap(s) ==> HeldOk(s, i))
  }

  ghost predicate Inv(s: State) { Slots(s) && Watch(s) && Hand(s) }

  lemma DisarmedIsHeld(s: State, i: nat)
    requires Hand(s) && i < Cap(s) && Disarmed(s.ruby, i)
    ensures s.queue.cells[i].phase == Held
  {
    if s.ruby.job.Release? { assert WrapperOk(s, s.ruby.job.w); }
  }

  // -------------------------------------------------------------- frames

  /** Nothing this layer reads changes (claims and fires may be extended). */
  predicate Untouched(s: State, t: State) {
    && Shape(s) && Shape(t)
    && t.queue == s.queue && t.slots == s.slots && t.stages == s.stages
    && t.wd == s.wd && t.ruby == s.ruby && t.wrappers == s.wrappers
    && t.claims == s.claims && s.fires <= t.fires
  }

  lemma UntouchedKeeps(s: State, t: State)
    requires Inv(s) && Untouched(s, t)
    ensures Inv(t)
  {
    forall i | 0 <= i < Cap(t) ensures SlotOk(t, i) && ReaderOk(t, i) && HeldOk(t, i) {
      assert SlotOk(s, i) && ReaderOk(s, i) && HeldOk(s, i);
    }
    forall w | w in t.wrappers ensures WrapperOk(t, w) { assert WrapperOk(s, w); }
  }

  // -------------------------------------------------------------- callbacks

  /** A callback works on its own slot i: claims it, prepares it or publishes it. */
  predicate Builds(s: State, t: State, i: nat) {
    && Shape(s) && Shape(t) && i < Cap(s) && t.queue.cap == s.queue.cap
    && s.queue.deq == t.queue.deq
    && t.queue.cells == s.queue.cells[i := t.queue.cells[i]]
    && t.slots == s.slots[i := t.slots[i]]
    && t.stages == s.stages[i := t.stages[i]]
    && t.wd == s.wd && t.ruby == s.ruby && t.wrappers == s.wrappers
    && s.claims <= t.claims && Count(s) == Count(t)
    && (s.queue.cells[i].phase == Free || s.queue.cells[i].phase == Claimed)
    && (t.queue.cells[i].phase == Claimed || t.queue.cells[i].phase == Published)
    && t.slots[i].readers == s.slots[i].readers
    && (Busy(s, i) && s.stages[i] == Live ==> t.stages[i] == Live && t.slots[i].position == s.slots[i].position)
  }

  lemma BuildsKeepsSlots(s: State, t: State, i: nat, m: nat)
    requires Claims(s) && Slots(s) && Builds(s, t, i) && SlotOk(t, i)
    requires m < Count(s) && t.fires == s.fires[m := t.fires[m]]
    requires t.fires != s.fires ==> Busy(s, i) && Occupant(s, i) == m
    ensures Slots(t)
  {
    forall j | 0 <= j < Cap(t) ensures SlotOk(t, j) && ReaderOk(t, j) {
      assert SlotOk(s, j) && ReaderOk(s, j);
      if j != i && Busy(s, j) {
        var _ := Occupant(s, j);
        assert CellOk(s.queue, i) && CellOk(s.queue, j);
      }
    }
  }

  lemma BuildsKeepsHand(s: State, t: State, i: nat)
    requires Rings.Inv(s.queue) && Watch(s) && Hand(s) && Builds(s, t, i)
    ensures Watch(t) && Hand(t)
  {
    DequeueRead(s.queue, s.queue.deq);
    forall j | 0 <= j < Cap(t) ensures HeldOk(t, j) { assert HeldOk(s, j); }
    forall w | w in t.wrappers ensures WrapperOk(t, w) { assert WrapperOk(s, w); }
  }

  // -------------------------------------------------------------- watchdog

  /** The watchdog moves without touching a slot. */
  lemma WatchdogMoveKeeps(s: State, t: State)
    requires Inv(s) && Shape(t)
    requires t.queue == s.queue && t.slots == s.slots && t.stages == s.stages
    requires t.ruby == s.ruby && t.wrappers == s.wrappers && t.claims == s.claims && t.fires == s.fires
    requires forall i :: 0 <= i < Cap(s) ==> Reads(t.wd, i) == Reads(s.wd, i)
    requires Watch(t)
    ensures Inv(t)
  {
    forall i | 0 <= i < Cap(t) ensures SlotOk(t, i) && ReaderOk(t, i) && HeldOk(t, i) {
      assert SlotOk(s, i) && ReaderOk(s, i) && HeldOk(s, i);
    }
    forall w | w in t.wrappers ensures WrapperOk(t, w) { assert WrapperOk(s, w); }
  }

  /** The watchdog moves and updates the reader count or the answer of its slot. */
  lemma WatchdogSlotKeeps(s: State, t: State, i: nat)
    requires Inv(s) && Shape(t) && i < Cap(s)
    requires t.queue == s.queue && t.stages == s.stages
    requires t.slots == s.slots[i := s.slots[i].(readers := t.slots[i].readers, answer := t.slots[i].answer)]
    requires t.ruby == s.ruby && t.wrappers == s.wrappers && t.claims == s.claims && t.fires == s.fires
    requires forall j :: 0 <= j < Cap(s) && j != i ==> Reads(t.wd, j) == Reads(s.wd, j)
    requires ReaderOk(t, i) && Watch(t)
    ensures Inv(t)
  {
    forall j | 0 <= j < Cap(t) ensures SlotOk(t, j) && ReaderOk(t, j) && HeldOk(t, j) {
      assert SlotOk(s, j) && ReaderOk(s, j) && HeldOk(s, j);
    }
    forall w | w in t.wrappers ensures WrapperOk(t, w) { assert WrapperOk(s, w); }
  }

  // -------------------------------------------------------------- Ruby

  /** Ruby moves; slots, ring and wrappers stay. */
  lemma RubyMoveKeeps(s: State, t: State)
    requires Inv(s) && Shape(t)
    requires t.queue == s.queue && t.slots == s.slots && t.stages == s.stages
    requires t.wd == s.wd && t.wrappers == s.wrappers && t.claims == s.claims && t.fires == s.fires
    requires !s.ruby.Invalidate? && !t.ruby.Invalidate?
    requires forall i :: 0 <= i < Cap(s) ==> Disarmed(t.ruby, i) == Disarmed(s.ruby, i)
    requires forall i :: 0 <= i < Cap(s) ==> InHand(t.ruby, i) == InHand(s.ruby, i)
    requires RubyOk(t) && Watch(t)
    ensures Inv(t)
  {
    forall j | 0 <= j < Cap(t) ensures SlotOk(t, j) && ReaderOk(t, j) && HeldOk(t, j) {
      assert SlotOk(s, j) && ReaderOk(s, j) && HeldOk(s, j);
    }
    forall w | w in t.wrappers ensures WrapperOk(t, w) { assert WrapperOk(s, w); }
  }

  /** Ruby moves and updates the occupied flag or the answer of its slot. */
  lemma RubySlotKeeps(s: State, t: State, i: nat)
    requires Inv(s) && Shape(t) && i < Cap(s)
    requires t.queue == s.queue && t.stages == s.stages
    requires t.slots == s.slots[i := s.slots[i].(occupied := t.slots[i].occupied, answer := t.slots[i].answer)]
    requires t.wd == s.wd && t.wrappers == s.wrappers && t.claims == s.claims && t.fires == s.fires
    requires !s.ruby.Invalidate? && !t.ruby.Invalidate?
    requires SlotOk(t, i)
    requires forall j :: 0 <= j < Cap(s) && j != i ==> Disarmed(t.ruby, j) == Disarmed(s.ruby, j)
    requires forall j :: 0 <= j < Cap(s) ==> InHand(t.ruby, j) == InHand(s.ruby, j)
    requires RubyOk(t) && Watch(t)
    ensures Inv(t)
  {
    forall j | 0 <= j < Cap(t) ensures SlotOk(t, j) && ReaderOk(t, j) && HeldOk(t, j) {
      assert SlotOk(s, j) && ReaderOk(s, j) && HeldOk(s, j);
    }
    forall w | w in t.wrappers ensures WrapperOk(t, w) { assert WrapperOk(s, w); }
  }

  lemma DeqCasKeeps(s: State)
    requires Claims(s) && Inv(s) && s.ruby.DeqCas? && s.ruby.pos == s.queue.deq
    ensures Inv(DoDeqCas(s, false))
  {
    var t, i := DoDeqCas(s, false), At(s.queue.deq, Cap(s));
    TakeKeeps(s.queue);
    forall j | 0 <= j < Cap(t) ensures SlotOk(t, j) && ReaderOk(t, j) && HeldOk(t, j) {
      assert SlotOk(s, j) && ReaderOk(s, j) && HeldOk(s, j);
    }
    forall w | w in t.wrappers ensures WrapperOk(t, w) { assert WrapperOk(s, w); }
  }

  lemma WrapKeeps(s: State)
    requires Claims(s) && Build(s) && Inv(s) && s.ruby.Wrap?
    ensures Inv(DoWrap(s))
  {
    var t, i := DoWrap(s), s.ruby.slot;
    assert SlotOk(s, i) && CellOk(s.queue, i) && ClaimedOk(s, i);
    forall j | 0 <= j < Cap(t) ensures SlotOk(t, j) && ReaderOk(t, j) && HeldOk(t, j) {
      assert SlotOk(s, j) && ReaderOk(s, j) && HeldOk(s, j);
    }
    forall w | w in t.wrappers ensures WrapperOk(t, w) {
      if w in s.wrappers { assert WrapperOk(s, w); }
    }
  }

  lemma StoreSequenceKeepsSlots(s: State)
    requires Claims(s) && Inv(s) && s.ruby.StoreSequence?
    ensures Slots(DoStoreSequence(s)) && Watch(DoStoreSequence(s))
  {
    var t, i := DoStoreSequence(s), s.ruby.slot;
    assert SlotOk(s, i) && CellOk(s.queue, i);
    if s.ruby.job.Release? { assert WrapperOk(s, s.ruby.job.w); }
    forall j | 0 <= j < Cap(t) ensures SlotOk(t, j) && ReaderOk(t, j) {
      assert SlotOk(s, j) && ReaderOk(s, j);
    }
  }

  lemma StoreSequenceKeepsHand(s: State)
    requires Claims(s) && Build(s) && Inv(s) && s.ruby.StoreSequence?
    ensures Hand(DoStoreSequence(s))
  {
    var t, i := DoStoreSequence(s), s.ruby.slot;
    assert SlotOk(s, i) && CellOk(s.queue, i) && ClaimedOk(s, i);
    if s.ruby.job.Release? { assert WrapperOk(s, s.ruby.job.w); }
    forall j | 0 <= j < Cap(t) ensures HeldOk(t, j) { assert HeldOk(s, j) && CellOk(s.queue, j); }
    forall w | w in t.wrappers ensures WrapperOk(t, w) { assert WrapperOk(s, w); }
  }

  lemma InvalidateKeeps(s: State)
    requires Inv(s) && s.ruby.Invalidate?
    ensures Inv(DoInvalidate(s))
  {
    var t := DoInvalidate(s);
    forall j | 0 <= j < Cap(t) ensures SlotOk(t, j) && ReaderOk(t, j) && HeldOk(t, j) {
      assert SlotOk(s, j) && ReaderOk(s, j) && HeldOk(s, j);
    }
    forall w | w in t.wrappers ensures WrapperOk(t, w) { assert WrapperOk(s, w); }
  }

  lemma RetainKeeps(s: State, w: nat)
    requires Inv(s) && s.ruby == Idle && w in s.wrappers && s.wrappers[w].valid
    ensures Inv(Begin(s, CmdRetain(w)))
  {
    var t := Begin(s, CmdRetain(w));
    forall j | 0 <= j < Cap(t) ensures SlotOk(t, j) && ReaderOk(t, j) && HeldOk(t, j) {
      assert SlotOk(s, j) && ReaderOk(s, j) && HeldOk(s, j);
    }
    forall v | v in t.wrappers ensures WrapperOk(t, v) { assert WrapperOk(s, v); }
  }

  lemma DisarmSpinKeeps(s: State)
    requires Claims(s) && Inv(s) && s.ruby.DisarmSpin? && s.slots[s.ruby.slot].readers == 0
    ensures Inv(DoDisarmSpin(s))
  {
    assert ReaderOk(s, s.ruby.slot);
    RubyMoveKeeps(s, DoDisarmSpin(s));
  }
}
