/** First layer of the invariant: who owns which slot, and how far it is prepared. */
module Structure {
  import opened Rings
  import opened Protocol

  /** Callbacks that have not yet learnt what becomes of their message. */
  predicate Deciding(pc: CallbackPc) {
    pc.Check? || pc.Retain? || pc.EnqLoad? || pc.EnqRead? || pc.EnqCas?
  }

  predicate Dropping(pc: CallbackPc) { pc.Full? || pc.FullCount? || pc.FullRelease? }

  predicate Notifying(pc: CallbackPc) { pc.NotifyCas? || pc.NotifyWrite? }

  function StageFor(pc: CallbackPc): Stage {
    if pc.Fill? then Blank else if pc.SetAnswer? then Filled else if pc.SetOccupied? then Set else Live
  }

  // -------------------------------------------------------------- claims

  ghost predicate ClaimOk(s: State, p: nat)
    requires p < |s.claims|
  {
    s.claims[p] < |s.fates| && s.fates[s.claims[p]] == Accepted(p)
  }

  ghost predicate FateOk(s: State, m: nat)
    requires m < |s.fates|
  {
    s.fates[m].Accepted? ==> s.fates[m].pos < |s.claims| && s.claims[s.fates[m].pos] == m
  }

  /** Claims of positions and accepted messages are in bijection. */
  ghost predicate Claims(s: State) {
    && Shape(s) && Rings.Inv(s.queue) && Rings.Inv(s.requests)
    && |s.claims| == s.queue.enq
    && (forall p :: 0 <= p < |s.claims| ==> ClaimOk(s, p))
    && (forall m :: 0 <= m < |s.fates| ==> FateOk(s, m))
  }

  predicate Busy(s: State, i: nat)
    requires i < |s.queue.cells|
  {
    s.queue.cells[i].phase != Free
  }

  /** The message that claimed the position slot i stands for. */
  ghost function Occupant(s: State, i: nat): (m: nat)
    requires Claims(s) && i < Cap(s) && Busy(s, i)
    ensures m < Count(s) && s.fates[m] == Accepted(s.queue.cells[i].cur)
    ensures s.queue.cells[i].cur < |s.claims| && s.claims[s.queue.cells[i].cur] == m
  {
    assert CellOk(s.queue, i);
    assert ClaimOk(s, s.queue.cells[i].cur);
    s.claims[s.queue.cells[i].cur]
  }

  lemma OccupantsDiffer(s: State, i: nat, j: nat)
    requires Claims(s) && i < Cap(s) && j < Cap(s) && i != j && Busy(s, i) && Busy(s, j)
    ensures Occupant(s, i) != Occupant(s, j)
  {
    assert CellOk(s.queue, i) && CellOk(s.queue, j);
  }

  // -------------------------------------------------------------- program counters

  ghost predicate PcOk(s: State, m: nat)
    requires Shape(s) && m < Count(s)
  {
    var pc, fate := s.pcs[m], s.fates[m];
    && (Deciding(pc) <==> fate == Undecided)
    && (pc.Refuse? ==> fate == Refused)
    && (Dropping(pc) ==> fate == Dropped)
    && (NeedsSlot(pc) || Notifying(pc) ==> fate.Accepted?)
    && (pc.EnqRead? || pc.EnqCas? ==> pc.pos <= s.queue.enq)
    && (pc.ArmRead? || pc.ArmCas? ==> pc.at <= s.requests.enq)
    && (pc.EnqCas? && pc.pos == s.queue.enq ==> Claimable(s.queue))
    && (pc.ArmCas? && pc.at == s.requests.enq ==> Claimable(s.requests))
  }

  ghost predicate Pcs(s: State) {
    Shape(s) && forall m :: 0 <= m < Count(s) ==> PcOk(s, m)
  }

  // -------------------------------------------------------------- slots under construction

  /** A callback at work has claimed its slot and brought it to the stage its pc tells. */
  ghost predicate BuildOk(s: State, m: nat)
    requires Shape(s) && m < Count(s)
  {
    NeedsSlot(s.pcs[m]) && s.fates[m].Accepted? ==>
      var c := s.queue.cells[MySlot(s, m)];
      c.cur == s.fates[m].pos && c.phase == Claimed && s.stages[MySlot(s, m)] == StageFor(s.pcs[m])
  }

  /** A claimed slot has its callback still at work; other busy slots are complete. */
  ghost predicate ClaimedOk(s: State, i: nat)
    requires Shape(s) && i < Cap(s)
  {
    var c := s.queue.cells[i];
    && (c.phase == Claimed ==>
          c.cur < |s.claims| && s.claims[c.cur] < Count(s) && NeedsSlot(s.pcs[s.claims[c.cur]]))
    && (c.phase == Published || c.phase == Held ==> s.stages[i] == Live)
  }

  ghost predicate Build(s: State) {
    && Shape(s)
    && (forall m :: 0 <= m < Count(s) ==> BuildOk(s, m))
    && (forall i :: 0 <= i < Cap(s) ==> ClaimedOk(s, i))
  }

  ghost predicate Inv(s: State) { Claims(s) && Pcs(s) && Build(s) }

  // -------------------------------------------------------------- frames

  /** The request ring moves on without disturbing a producer about to claim. */
  predicate Onward(r: Ring, r': Ring) {
    r.enq < r'.enq || (r.enq == r'.enq && (Claimable(r) ==> Claimable(r')))
  }

  predicate SameClass(a: CallbackPc, b: CallbackPc) {
    && NeedsSlot(a) == NeedsSlot(b) && StageFor(a) == StageFor(b)
  }

  lemma ClaimsFrame(s: State, t: State)
    requires Claims(s) && Shape(t)
    requires Rings.Inv(t.queue) && t.queue.enq == s.queue.enq && Rings.Inv(t.requests)
    requires t.claims == s.claims && t.fates == s.fates
    ensures Claims(t)
  {
    forall p | 0 <= p < |t.claims| ensures ClaimOk(t, p) { assert ClaimOk(s, p); }
    forall m | 0 <= m < |t.fates| ensures FateOk(t, m) { assert FateOk(s, m); }
  }

  /** The callback of m moves; everything else this layer reads stays. */
  predicate Moves(s: State, t: State, m: nat) {
    && Shape(s) && Shape(t) && m < Count(s)
    && Count(t) == Count(s) && t.pcs == s.pcs[m := t.pcs[m]]
    && t.fates == s.fates && t.claims == s.claims && t.queue == s.queue && t.stages == s.stages
  }

  lemma MovesKeeps(s: State, t: State, m: nat)
    requires Inv(s) && Moves(s, t, m) && PcOk(t, m) && SameClass(s.pcs[m], t.pcs[m])
    requires Rings.Inv(t.requests) && Onward(s.requests, t.requests)
    ensures Inv(t)
  {
    ClaimsFrame(s, t);
    forall j | 0 <= j < Count(t) ensures PcOk(t, j) && BuildOk(t, j) {
      assert PcOk(s, j) && BuildOk(s, j);
    }
    forall i | 0 <= i < Cap(t) ensures ClaimedOk(t, i) { assert ClaimedOk(s, i); }
  }

  /** Nothing this layer reads changes. */
  predicate Untouched(s: State, t: State) {
    && Shape(s) && Shape(t)
    && t.pcs == s.pcs && t.fates == s.fates && t.claims == s.claims && t.queue == s.queue
    && t.stages == s.stages
  }

  lemma UntouchedKeeps(s: State, t: State)
    requires Inv(s) && Untouched(s, t)
    requires Rings.Inv(t.requests) && Onward(s.requests, t.requests)
    ensures Inv(t)
  {
    ClaimsFrame(s, t);
    forall j | 0 <= j < Count(t) ensures PcOk(t, j) && BuildOk(t, j) {
      assert PcOk(s, j) && BuildOk(s, j);
    }
    forall i | 0 <= i < Cap(t) ensures ClaimedOk(t, i) { assert ClaimedOk(s, i); }
  }

  // -------------------------------------------------------------- initially

  lemma InitInv(s: State)
    requires Protocol.Init(s)
    ensures Inv(s)
  {
    Rings.StartInv(s.queue.cap);
  }

  lemma ArriveKeeps(s: State, auth: bool, deadline: nat)
    requires Inv(s)
    ensures Inv(Arrive(s, auth, deadline))
  {
    var t := Arrive(s, auth, deadline);
    forall p | 0 <= p < |t.claims| ensures ClaimOk(t, p) { assert ClaimOk(s, p); }
    forall m | 0 <= m < |t.fates| ensures FateOk(t, m) && PcOk(t, m) && BuildOk(t, m) {
      if m < Count(s) { assert FateOk(s, m) && PcOk(s, m) && BuildOk(s, m); }
    }
    forall i | 0 <= i < Cap(t) ensures ClaimedOk(t, i) { assert ClaimedOk(s, i); }
  }

  // -------------------------------------------------------------- callback steps

  /** A callback that has not claimed a slot learns that it will not get one. */
  lemma TurnedAwayKeeps(s: State, t: State, m: nat)
    requires Inv(s) && Shape(t) && m < Count(s) == Count(t)
    requires s.fates[m] == Undecided
    requires (t.pcs[m] == Refuse && t.fates[m] == Refused) || (t.pcs[m] == Full && t.fates[m] == Dropped)
    requires t.pcs == s.pcs[m := t.pcs[m]] && t.fates == s.fates[m := t.fates[m]]
    requires t.claims == s.claims && t.queue == s.queue && t.stages == s.stages && t.requests == s.requests
    ensures Inv(t)
  {
    forall p | 0 <= p < |t.claims| ensures ClaimOk(t, p) { assert ClaimOk(s, p); }
    assert PcOk(s, m);
    forall j | 0 <= j < |t.fates| ensures FateOk(t, j) && PcOk(t, j) && BuildOk(t, j) {
      assert FateOk(s, j) && PcOk(s, j) && BuildOk(s, j);
    }
    forall i | 0 <= i < Cap(t) ensures ClaimedOk(t, i) { assert ClaimedOk(s, i); }
  }

  lemma ClaimKeepsClaims(s: State, m: nat)
    requires Inv(s) && m < Count(s) && s.pcs[m] == EnqCas(s.queue.enq)
    ensures Claims(DoEnqCas(s, m, false))
  {
    var t := DoEnqCas(s, m, false);
    assert PcOk(s, m);
    ClaimKeeps(s.queue);
    forall p | 0 <= p < |t.claims| ensures ClaimOk(t, p) {
      if p < |s.claims| { assert ClaimOk(s, p); }
    }
    forall j | 0 <= j < |t.fates| ensures FateOk(t, j) { assert FateOk(s, j); }
  }

  lemma ClaimKeepsPcs(s: State, m: nat)
    requires Pcs(s) && Rings.Inv(s.queue) && m < Count(s) && s.pcs[m] == EnqCas(s.queue.enq)
    ensures Pcs(DoEnqCas(s, m, false))
  {
    var t := DoEnqCas(s, m, false);
    forall j | 0 <= j < Count(t) ensures PcOk(t, j) { assert PcOk(s, j); }
  }

  lemma ClaimKeepsBuild(s: State, m: nat)
    requires Inv(s) && m < Count(s) && s.pcs[m] == EnqCas(s.queue.enq)
    ensures Build(DoEnqCas(s, m, false))
  {
    var t := DoEnqCas(s, m, false);
    assert PcOk(s, m);
    ClaimKeeps(s.queue);
    forall j | 0 <= j < Count(t) ensures BuildOk(t, j) { assert BuildOk(s, j) && PcOk(s, j) && FateOk(s, j); }
    forall i | 0 <= i < Cap(t) ensures ClaimedOk(t, i) {
      assert ClaimedOk(s, i) && CellOk(s.queue, i);
    }
  }

  /** The three preparation steps raise the stage of the callback's own slot. */
  lemma PrepareKeeps(s: State, t: State, m: nat)
    requires Inv(s) && Shape(t) && m < Count(s) == Count(t)
    requires NeedsSlot(s.pcs[m]) && NeedsSlot(t.pcs[m]) && s.fates[m].Accepted?
    requires t.pcs == s.pcs[m := t.pcs[m]] && PcOk(t, m)
    requires t.stages == s.stages[MySlot(s, m) := StageFor(t.pcs[m])]
    requires t.fates == s.fates && t.claims == s.claims && t.queue == s.queue && t.requests == s.requests
    ensures Inv(t)
  {
    ClaimsFrame(s, t);
    assert BuildOk(s, m);
    forall j | 0 <= j < Count(t) ensures PcOk(t, j) && BuildOk(t, j) {
      assert PcOk(s, j) && BuildOk(s, j) && FateOk(s, j) && FateOk(s, m);
    }
    forall i | 0 <= i < Cap(t) ensures ClaimedOk(t, i) { assert ClaimedOk(s, i); }
  }

  lemma PublishKeepsInv(s: State, m: nat)
    requires Inv(s) && m < Count(s) && s.pcs[m] == PubStore && s.fates[m].Accepted?
    requires s.slots[MySlot(s, m)].position == s.fates[m].pos
    ensures Inv(DoPubStore(s, m))
  {
    var t, i := DoPubStore(s, m), MySlot(s, m);
    assert BuildOk(s, m);
    PublishKeeps(s.queue, i);
    ClaimsFrame(s, t);
    forall j | 0 <= j < Count(t) ensures PcOk(t, j) && BuildOk(t, j) {
      assert PcOk(s, j) && BuildOk(s, j) && FateOk(s, j) && FateOk(s, m);
    }
    forall k | 0 <= k < Cap(t) ensures ClaimedOk(t, k) {
      assert ClaimedOk(s, k) && CellOk(s.queue, k);
      if k != i && s.queue.cells[k].phase == Claimed { assert ClaimOk(s, s.queue.cells[k].cur); }
    }
  }

  // -------------------------------------------------------------- ring steps of the other actors

  /** A consumer takes a published slot or hands back a held one. */
  lemma ConsumeKeeps(s: State, t: State, i: nat)
    requires Inv(s) && Shape(t) && i < Cap(s)
    requires t.pcs == s.pcs && t.fates == s.fates && t.claims == s.claims && t.stages == s.stages
    requires t.requests == s.requests
    requires Rings.Inv(t.queue) && t.queue.enq == s.queue.enq && t.queue.cap == s.queue.cap
    requires Claimable(s.queue) ==> Claimable(t.queue)
    requires s.queue.cells[i].phase == Published || s.queue.cells[i].phase == Held
    requires t.queue.cells[i].phase == Held || t.queue.cells[i].phase == Free
    requires t.queue.cells == s.queue.cells[i := t.queue.cells[i]]
    ensures Inv(t)
  {
    ClaimsFrame(s, t);
    forall j | 0 <= j < Count(t) ensures PcOk(t, j) && BuildOk(t, j) {
      assert PcOk(s, j) && BuildOk(s, j);
    }
    forall k | 0 <= k < Cap(t) ensures ClaimedOk(t, k) { assert ClaimedOk(s, k); }
  }
}
