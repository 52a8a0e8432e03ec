/** Seventh layer: the coalesced wakeup (esrb_notify against client_drain). */
module Wakeup {
  import opened Rings
  import opened Protocol
  import opened Structure

  /** Between the read that empties the pipe and the store that clears `notified`. */
  predicate Draining(pc: RubyPc) { Making(pc) || Emptied(pc) }

  /** The result array has yet to be made. */
  predicate Making(pc: RubyPc) { pc.DrainEmpty? || Outer(pc).MakeArray? }

  /** It has been made, and the flag has yet to be cleared. */
  predicate Emptied(pc: RubyPc) {
    Outer(pc).Wrap? || pc.CountDelivered? || pc.Clear?
    || ((pc.DeqLoad? || pc.DeqRead? || pc.DeqCas?) && pc.mode.Draining?)
  }

  /** After that store: the depth check will notify if position p is still queued. */
  predicate WillNotify(pc: RubyPc, p: nat) {
    pc.DepthEnq? || (pc.DepthDeq? && p < pc.enqueued) || (pc.RubyNotify? && pc.fromDrain)
  }

  /** The callback has passed its compare-and-swap of `notified`. */
  predicate Announced(pc: CallbackPc) { pc.NotifyWrite? || pc.Leave? || pc.Done? }

  ghost predicate CallbackWrites(s: State) {
    exists m :: 0 <= m < |s.pcs| && s.pcs[m] == NotifyWrite
  }

  /** Some actor has won `notified` and has yet to write its byte. */
  ghost predicate SomeoneWrites(s: State) {
    CallbackWrites(s) || s.wd.TimeoutWrite? || s.ruby.RubyWrite?
  }

  ghost predicate Seen(s: State, p: nat)
    requires p < |s.claims|
  {
    s.queue.deq <= p && s.claims[p] < |s.pcs| && Announced(s.pcs[s.claims[p]]) ==>
      s.notified || Emptied(s.ruby) || WillNotify(s.ruby, p)
  }

  ghost predicate Inv(s: State) {
    && (s.notified && !Draining(s.ruby) ==> s.pipe > 0 || SomeoneWrites(s) || s.broken)
    && (forall p :: 0 <= p < |s.claims| ==> Seen(s, p))
  }

  // -------------------------------------------------------------- frames

  predicate SameVoice(a: CallbackPc, b: CallbackPc) {
    Announced(a) == Announced(b) && a.NotifyWrite? == b.NotifyWrite?
  }

  /** The callback of m does not announce a slot in this step. */
  predicate Hushed(s: State, t: State, m: nat)
    requires m < |s.pcs| <= |t.pcs| && m < |s.fates|
  {
    SameVoice(s.pcs[m], t.pcs[m]) || (!s.pcs[m].NotifyWrite? && !t.pcs[m].NotifyWrite? && !s.fates[m].Accepted?)
  }

  predicate SameDrain(a: RubyPc, b: RubyPc) { Draining(a) == Draining(b) && Emptied(a) == Emptied(b) }

  /** No one announces, writes or drains. */
  lemma FrameKeeps(s: State, t: State)
    requires Claims(s) && Inv(s) && |t.pcs| >= |s.pcs|
    requires t.notified == s.notified && t.pipe == s.pipe && t.broken == s.broken && s.queue.deq <= t.queue.deq
    requires s.claims <= t.claims
    requires forall p :: |s.claims| <= p < |t.claims| ==> t.claims[p] < |t.pcs| && !Announced(t.pcs[t.claims[p]])
    requires forall m :: 0 <= m < |s.pcs| ==> Hushed(s, t, m)
    requires t.wd.TimeoutWrite? == s.wd.TimeoutWrite?
    requires t.ruby.RubyWrite? == s.ruby.RubyWrite? && SameDrain(s.ruby, t.ruby)
    requires forall p: nat :: t.queue.deq <= p && WillNotify(s.ruby, p) ==> WillNotify(t.ruby, p)
    ensures Inv(t)
  {
    if CallbackWrites(s) {
      var m :| 0 <= m < |s.pcs| && s.pcs[m] == NotifyWrite;
      assert Hushed(s, t, m);
    }
    forall p | 0 <= p < |t.claims| ensures Seen(t, p) {
      if p < |s.claims| { assert Seen(s, p) && ClaimOk(s, p) && Hushed(s, t, s.claims[p]); }
    }
  }

  /** An actor raises the flag, or finds it raised, and owes or need not owe a byte. */
  lemma RaisedKeeps(s: State, t: State)
    requires Inv(s) && t.claims == s.claims && t.notified
    requires t.pipe == s.pipe && t.broken == s.broken && SameDrain(s.ruby, t.ruby)
    requires if s.notified then SomeoneWrites(s) ==> SomeoneWrites(t) else SomeoneWrites(t)
    ensures Inv(t)
  {
    forall p | 0 <= p < |t.claims| ensures Seen(t, p) { assert Seen(s, p); }
  }

  /** An actor writes its byte: the pipe is not empty. */
  lemma WriteKeeps(s: State, t: State)
    requires Inv(s) && t.claims == s.claims && t.queue == s.queue && t.notified == s.notified && t.pipe > 0
    requires |t.pcs| == |s.pcs| && forall m :: 0 <= m < |s.pcs| ==> Announced(t.pcs[m]) == Announced(s.pcs[m])
    requires SameDrain(s.ruby, t.ruby)
    requires forall p: nat :: WillNotify(s.ruby, p) ==> WillNotify(t.ruby, p)
    ensures Inv(t)
  {
    forall p | 0 <= p < |t.claims| ensures Seen(t, p) { assert Seen(s, p); }
  }

  /** Ruby is draining, or begins to check the depth: nothing is owed. */
  lemma DrainKeeps(s: State, t: State)
    requires Emptied(t.ruby) || (t.ruby.DepthEnq? && !t.notified)
    ensures Inv(t)
  {
    forall p | 0 <= p < |t.claims| ensures Seen(t, p) {}
  }

  /** Ruby is emptying the pipe or making the array, or raises then: the flag is as it was. */
  lemma EmptyingKeeps(s: State, t: State)
    requires Inv(s) && (s.ruby == Idle || Making(s.ruby))
    requires Making(t.ruby) || (t.ruby == Idle && t.broken)
    requires t.claims == s.claims && t.queue == s.queue && t.pcs == s.pcs && t.notified == s.notified
    ensures Inv(t)
  {
    forall p | 0 <= p < |t.claims| ensures Seen(t, p) { assert Seen(s, p); }
  }

  lemma DepthKeeps(s: State)
    requires Claims(s) && Inv(s) && (s.ruby.DepthEnq? || s.ruby.DepthDeq?)
    ensures Inv(if s.ruby.DepthEnq? then DoDepthEnq(s) else DoDepthDeq(s))
  {
    var t := if s.ruby.DepthEnq? then DoDepthEnq(s) else DoDepthDeq(s);
    assert CallbackWrites(t) == CallbackWrites(s);
    forall p | 0 <= p < |t.claims| ensures Seen(t, p) { assert Seen(s, p); }
  }

  /** A callback that owes no byte moves: whoever owed one still does. */
  lemma StillWriting(s: State, t: State, m: nat)
    requires m < |s.pcs| == |t.pcs| && s.pcs[m] != NotifyWrite
    requires t.pcs == s.pcs[m := t.pcs[m]] && t.wd == s.wd && t.ruby == s.ruby
    ensures SomeoneWrites(s) ==> SomeoneWrites(t)
  {
    if CallbackWrites(s) {
      var j :| 0 <= j < |s.pcs| && s.pcs[j] == NotifyWrite;
      assert t.pcs[j] == NotifyWrite;
    }
  }
}
