/** Eighth layer: the statistics. */
module Counters {
  import opened Rings
  import opened Protocol
  import opened Structure

  /** Past the closed check, but neither claimed a slot nor counted as dropped. */
  predicate Undecided(pc: CallbackPc) {
    pc.Retain? || pc.EnqLoad? || pc.EnqRead? || pc.EnqCas? || pc.Full? || pc.FullCount?
  }

  ghost predicate DecidingOk(s: State, m: nat) {
    m in s.deciding <==> m < |s.pcs| && Undecided(s.pcs[m])
  }

  function InHand(pc: RubyPc): nat { if Outer(pc).Wrap? || pc.CountDelivered? then 1 else 0 }

  function Uncounted(pc: WatchdogPc): nat { if pc.Send? || pc.CountTimeout? then 1 else 0 }

  ghost predicate Totals(s: State) {
    && s.passed == |s.deciding| + s.dropped + s.queue.enq
    && s.queue.deq == s.delivered + s.discarded + InHand(s.ruby)
    && s.wins == s.timeouts + Uncounted(s.wd)
    && (s.ruby.DepthDeq? ==> s.queue.deq <= s.ruby.enqueued <= s.queue.enq)
  }

  ghost predicate DepthOk(s: State, m: nat)
    requires m < |s.pcs|
  {
    && (s.pcs[m].PubMax? || s.pcs[m].PubCas? ==> 1 <= s.pcs[m].depth <= s.queue.cap)
    && (s.pcs[m].PubCas? ==> s.pcs[m].maximum <= s.depthMax)
  }

  ghost predicate Depths(s: State) {
    && 0 <= s.depthMax <= s.queue.cap && s.depthMax == s.topDepth
    && (forall m :: 0 <= m < |s.pcs| ==> DepthOk(s, m))
  }

  ghost predicate Inv(s: State) {
    && Totals(s) && (forall m: nat :: DecidingOk(s, m)) && Depths(s)
  }

  // -------------------------------------------------------------- frames

  lemma CallbackKeeps(s: State, t: State, m: nat)
    requires Inv(s) && m < |s.pcs| == |t.pcs| && t.pcs == s.pcs[m := t.pcs[m]] && t.queue.cap == s.queue.cap
    requires if Undecided(t.pcs[m]) == Undecided(s.pcs[m]) then t.deciding == s.deciding
      else t.deciding == if Undecided(t.pcs[m]) then s.deciding + {m} else s.deciding - {m}
    requires Totals(t)
    requires s.depthMax <= t.depthMax <= s.queue.cap && t.depthMax == t.topDepth && DepthOk(t, m)
    ensures Inv(t)
  {
    forall j: nat ensures DecidingOk(t, j) { assert DecidingOk(s, j); }
    forall j | 0 <= j < |t.pcs| ensures DepthOk(t, j) { assert DepthOk(s, j); }
  }

  lemma OtherKeeps(s: State, t: State)
    requires Inv(s) && t.pcs == s.pcs && t.queue.cap == s.queue.cap && t.deciding == s.deciding
    requires Totals(t) && t.depthMax == s.depthMax && t.topDepth == s.topDepth
    ensures Inv(t)
  {
    forall j: nat ensures DecidingOk(t, j) { assert DecidingOk(s, j); }
    forall j | 0 <= j < |t.pcs| ensures DepthOk(t, j) { assert DepthOk(s, j); }
  }

  lemma ArriveKeeps(s: State, auth: bool, deadline: nat)
    requires Inv(s)
    ensures Inv(Arrive(s, auth, deadline))
  {
    var t := Arrive(s, auth, deadline);
    forall j: nat ensures DecidingOk(t, j) { assert DecidingOk(s, j); }
    forall j | 0 <= j < |t.pcs| ensures DepthOk(t, j) { if j < |s.pcs| { assert DepthOk(s, j); } }
  }

  /** The depth computed by esrb_queue_publish lies in 1..capacity. */
  lemma PublishDepth(s: State, m: nat)
    requires Claims(s) && Build(s) && CallbackReady(s, m) && s.pcs[m] == PubLoad
    requires s.slots[MySlot(s, m)].position == s.fates[m].pos
    ensures 1 <= DoPubLoad(s, m).pcs[m].depth <= s.queue.cap
  {
    assert BuildOk(s, m) && CellOk(s.queue, MySlot(s, m));
  }
}
