/** Fifth layer: who must release a retained message, and in which order
    messages leave the ring. */
module Ownership {
  import opened Rings
  import opened Protocol
  import opened Structure
  import Handshake

  /** Before es_retain_message, or turned away without it. */
  predicate Unretained(pc: CallbackPc) { pc.Check? || pc.Refuse? || pc.Retain? }

  predicate CallbackOwns(pc: CallbackPc) {
    pc.EnqLoad? || pc.EnqRead? || pc.EnqCas? || Dropping(pc) || NeedsSlot(pc)
  }

  /** Ruby has released the message of slot i and not yet returned the slot. */
  predicate Released(pc: RubyPc, i: nat) {
    match pc
    case DisarmStore(j, _, again) => again && i == j
    case DisarmSpin(j, _, again) => again && i == j
    case StoreSequence(j, _) => i == j
    case _ => false
  }

  function OwnerFor(phase: Phase, released: bool): Owner {
    match phase
    case Free => Nobody
    case Claimed => OwnCallback
    case Published => OwnQueue
    case Held => if released then Nobody else OwnRuby
  }

  ghost predicate SlotOwner(s: State, i: nat)
    requires Shape(s) && i < Cap(s)
  {
    var c := s.queue.cells[i];
    c.phase != Free ==>
      && c.cur < |s.claims| && s.claims[c.cur] < Count(s)
      && s.owners[s.claims[c.cur]] == OwnerFor(c.phase, Released(s.ruby, i))
  }

  ghost predicate MsgOwner(s: State, m: nat)
    requires Shape(s) && m < Count(s)
  {
    var owner, fate := s.owners[m], s.fates[m];
    && s.releases[m] == (if owner == Nobody then 1 else 0)
    && (owner == NotRetained <==> Unretained(s.pcs[m]) || fate == Refused)
    && (owner == OwnCallback <==> CallbackOwns(s.pcs[m]))
    && (owner == OwnQueue || owner == OwnRuby ==>
          && fate.Accepted?
          && s.queue.cells[MySlot(s, m)].cur == fate.pos
          && s.queue.cells[MySlot(s, m)].phase != Free)
  }

  ghost predicate TakenOk(s: State, p: nat)
    requires p < |s.taken|
  {
    p < |s.claims| && s.taken[p] == s.claims[p]
  }

  ghost predicate Inv(s: State) {
    && Shape(s)
    && (forall i :: 0 <= i < Cap(s) ==> SlotOwner(s, i))
    && (forall m :: 0 <= m < Count(s) ==> MsgOwner(s, m))
    && |s.taken| == s.queue.deq
    && (forall p :: 0 <= p < |s.taken| ==> TakenOk(s, p))
  }

  // -------------------------------------------------------------- frames

  predicate SameCare(a: CallbackPc, b: CallbackPc) {
    Unretained(a) == Unretained(b) && CallbackOwns(a) == CallbackOwns(b)
  }

  /** No slot changes phase and no message changes owner. */
  lemma FrameKeeps(s: State, t: State)
    requires Inv(s) && Shape(t) && Count(s) == Count(t) && Cap(s) == Cap(t)
    requires t.queue == s.queue && t.claims == s.claims && t.taken == s.taken
    requires t.owners == s.owners && t.releases == s.releases
    requires t.fates == s.fates
    requires forall m :: 0 <= m < Count(s) ==> SameCare(s.pcs[m], t.pcs[m])
    requires forall i :: 0 <= i < Cap(s) ==> Released(t.ruby, i) == Released(s.ruby, i)
    ensures Inv(t)
  {
    forall i | 0 <= i < Cap(t) ensures SlotOwner(t, i) { assert SlotOwner(s, i); }
    forall m | 0 <= m < Count(t) ensures MsgOwner(t, m) { assert MsgOwner(s, m); }
    forall p | 0 <= p < |t.taken| ensures TakenOk(t, p) { assert TakenOk(s, p); }
  }

  lemma ArriveKeeps(s: State, auth: bool, deadline: nat)
    requires Claims(s) && Inv(s)
    ensures Inv(Arrive(s, auth, deadline))
  {
    var t := Arrive(s, auth, deadline);
    forall i | 0 <= i < Cap(t) ensures SlotOwner(t, i) { assert SlotOwner(s, i); }
    forall m | 0 <= m < Count(t) ensures MsgOwner(t, m) { if m < Count(s) { assert MsgOwner(s, m); } }
    forall p | 0 <= p < |t.taken| ensures TakenOk(t, p) { assert TakenOk(s, p); }
  }

  // -------------------------------------------------------------- steps of callbacks

  /** One message that has no slot changes its owner or learns its fate. */
  lemma OwnKeeps(s: State, t: State, m: nat)
    requires Claims(s) && Inv(s) && Shape(t) && m < Count(s) == Count(t)
    requires t.queue == s.queue && t.claims == s.claims && t.taken == s.taken && t.ruby == s.ruby
    requires t.fates == s.fates[m := t.fates[m]] && !t.fates[m].Accepted?
    requires t.pcs == s.pcs[m := t.pcs[m]] && t.owners == s.owners[m := t.owners[m]]
    requires t.releases == s.releases[m := t.releases[m]]
    requires !s.fates[m].Accepted? && MsgOwner(t, m)
    ensures Inv(t)
  {
    forall i | 0 <= i < Cap(t) ensures SlotOwner(t, i) {
      assert SlotOwner(s, i);
      if Busy(s, i) { var _ := Occupant(s, i); }
    }
    forall j | 0 <= j < Count(t) ensures MsgOwner(t, j) { assert MsgOwner(s, j); }
    forall p | 0 <= p < |t.taken| ensures TakenOk(t, p) { assert TakenOk(s, p); }
  }

  lemma ClaimKeeps(s: State, m: nat)
    requires Claims(s) && Pcs(s) && Handshake.Hand(s) && Inv(s) && m < Count(s) && s.pcs[m] == EnqCas(s.queue.enq)
    requires Claimable(s.queue)
    ensures Inv(DoEnqCas(s, m, false))
  {
    var t, k := DoEnqCas(s, m, false), At(s.queue.enq, Cap(s));
    Rings.ClaimKeeps(s.queue);
    assert PcOk(s, m) && MsgOwner(s, m);
    forall i | 0 <= i < Cap(t) ensures SlotOwner(t, i) { assert SlotOwner(s, i) && CellOk(s.queue, i); }
    forall j | 0 <= j < Count(t) ensures MsgOwner(t, j) { assert MsgOwner(s, j); }
    forall p | 0 <= p < |t.taken| ensures TakenOk(t, p) { assert TakenOk(s, p); }
  }

  /** The occupant of slot i changes owner together with its slot's phase. */
  lemma PassKeeps(s: State, t: State, i: nat)
    requires Claims(s) && Inv(s) && Shape(t) && i < Cap(s) == Cap(t) && Count(s) == Count(t) && Busy(s, i)
    requires t.queue.cells == s.queue.cells[i := t.queue.cells[i]] && Busy(t, i)
    requires t.queue.cells[i].cur == s.queue.cells[i].cur
    requires t.claims == s.claims && t.fates == s.fates
    requires var m := Occupant(s, i);
      && t.pcs == s.pcs[m := t.pcs[m]] && t.owners == s.owners[m := t.owners[m]]
      && t.releases == s.releases[m := t.releases[m]] && MsgOwner(t, m)
    requires SlotOwner(t, i)
    requires forall j :: 0 <= j < Cap(s) && j != i ==> Released(t.ruby, j) == Released(s.ruby, j)
    requires |t.taken| == t.queue.deq && forall p :: 0 <= p < |t.taken| ==> TakenOk(t, p)
    ensures Inv(t)
  {
    forall j | 0 <= j < Cap(t) ensures SlotOwner(t, j) {
      assert SlotOwner(s, j);
      if j != i && Busy(s, j) { OccupantsDiffer(s, i, j); }
    }
    forall j | 0 <= j < Count(t) ensures MsgOwner(t, j) {
      assert MsgOwner(s, j);
    }
  }

  lemma PublishKeeps(s: State, m: nat)
    requires Claims(s) && Build(s) && Inv(s) && m < Count(s) && s.pcs[m] == PubStore && s.fates[m].Accepted?
    ensures Inv(DoPubStore(s, m))
  {
    var t, i := DoPubStore(s, m), MySlot(s, m);
    assert BuildOk(s, m) && FateOk(s, m) && MsgOwner(s, m) && SlotOwner(s, i);
    forall p | 0 <= p < |t.taken| ensures TakenOk(t, p) { assert TakenOk(s, p); }
    PassKeeps(s, t, i);
  }

  // -------------------------------------------------------------- steps of Ruby

  /** Dequeuing takes the claims in order: the message is the claimant's. */
  lemma DeqCasKeeps(s: State)
    requires Claims(s) && Build(s) && Handshake.Slots(s) && Inv(s) && s.ruby.DeqCas? && s.ruby.pos == s.queue.deq
    requires Takeable(s.queue)
    ensures Inv(DoDeqCas(s, false))
  {
    var t, i := DoDeqCas(s, false), At(s.queue.deq, Cap(s));
    TakeKeeps(s.queue);
    assert Handshake.SlotOk(s, i) && ClaimedOk(s, i);
    var m := Occupant(s, i);
    assert MsgOwner(s, m) && SlotOwner(s, i);
    forall p | 0 <= p < |t.taken| ensures TakenOk(t, p) {
      if p < |s.taken| { assert TakenOk(s, p); }
    }
    PassKeeps(s, t, i);
  }

  lemma ReleaseMessageKeeps(s: State)
    requires Claims(s) && Build(s) && Handshake.Slots(s) && Handshake.Hand(s) && Inv(s) && s.ruby.ReleaseMessage?
    requires s.queue.cells[s.ruby.slot].phase == Held
    ensures Inv(DoReleaseMessage(s))
  {
    var t, i := DoReleaseMessage(s), s.ruby.slot;
    assert Handshake.SlotOk(s, i) && ClaimedOk(s, i) && CellOk(s.queue, i);
    var m := Occupant(s, i);
    assert MsgOwner(s, m) && SlotOwner(s, i);
    forall p | 0 <= p < |t.taken| ensures TakenOk(t, p) { assert TakenOk(s, p); }
    PassKeeps(s, t, i);
  }

  lemma StoreSequenceKeeps(s: State)
    requires Claims(s) && Handshake.Hand(s) && Inv(s) && s.ruby.StoreSequence?
    requires s.queue.cells[s.ruby.slot].phase == Held
    ensures Inv(DoStoreSequence(s))
  {
    var t, i := DoStoreSequence(s), s.ruby.slot;
    var m := Occupant(s, i);
    assert SlotOwner(s, i) && CellOk(s.queue, i);
    forall j | 0 <= j < Cap(t) ensures SlotOwner(t, j) { assert SlotOwner(s, j); }
    forall j | 0 <= j < Count(t) ensures MsgOwner(t, j) {
      assert MsgOwner(s, j) && FateOk(s, j);
    }
    forall p | 0 <= p < |t.taken| ensures TakenOk(t, p) { assert TakenOk(s, p); }
  }
}
