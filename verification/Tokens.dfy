/** Third layer: the right to answer.  Every AUTH message carries one token,
    which is with its callback, parked in the slot's answer word, in the hand
    of exactly one actor, or spent; a response is sent exactly when it is spent. */
module Tokens {
  import opened Rings
  import opened Protocol
  import opened Structure
  import opened Handshake

  /** The callback has not yet parked the token in the slot, nor used it. */
  predicate Early(pc: CallbackPc) {
    pc.Check? || pc.Refuse? || pc.Retain? || pc.EnqLoad? || pc.EnqRead? || pc.EnqCas? || pc.Full? || pc.Fill? || pc.SetAnswer?
  }

  /** Slot i's answer word speaks for its occupant. */
  predicate Parked(s: State, i: nat)
    requires Shape(s) && i < Cap(s)
  {
    Busy(s, i) && (s.stages[i] == Set || s.stages[i] == Live)
  }

  ghost predicate SlotToken(s: State, i: nat)
    requires Shape(s) && i < Cap(s)
  {
    var c := s.queue.cells[i].cur;
    s.slots[i].answer == Pending <==>
      Parked(s, i) && c < |s.claims| && s.claims[c] < Count(s) && s.tokens[s.claims[c]] == InSlot
  }

  ghost predicate WatchdogSends(s: State, m: nat) {
    s.wd.Send? && s.wd.entry.slot < |s.slots| && s.slots[s.wd.entry.slot].message == m
  }

  ghost predicate RubySends(s: State, m: nat) {
    s.ruby.AnswerSend? && s.ruby.slot < |s.slots| && s.slots[s.ruby.slot].message == m
  }

  ghost predicate MsgToken(s: State, m: nat)
    requires Shape(s) && m < Count(s)
  {
    var token, fate := s.tokens[m], s.fates[m];
    && (token == NoToken <==> !s.auth[m])
    && s.responses[m] == (if token == Spent then 1 else 0)
    && (token == Fresh ==> Early(s.pcs[m]))
    && (Early(s.pcs[m]) ==> token == Fresh || token == NoToken)
    && (token == InSlot ==> fate.Accepted? && Parked(s, MySlot(s, m)) && s.queue.cells[MySlot(s, m)].cur == fate.pos)
    && (token == InHand(ByCallback) <==> s.pcs[m] == SelfSend)
    && (token == InHand(ByWatchdog) <==> WatchdogSends(s, m))
    && (token == InHand(ByRuby) <==> RubySends(s, m))
  }

  ghost predicate Inv(s: State) {
    && Shape(s)
    && (forall i :: 0 <= i < Cap(s) ==> SlotToken(s, i))
    && (forall m :: 0 <= m < Count(s) ==> MsgToken(s, m))
  }

  // -------------------------------------------------------------- frames

  predicate SameRole(a: CallbackPc, b: CallbackPc) {
    Early(a) == Early(b) && (a == SelfSend) == (b == SelfSend)
  }

  /** Slot i speaks for the same occupant with the same answer. */
  predicate SameWord(s: State, t: State, i: nat)
    requires Shape(s) && Shape(t) && i < Cap(s) && i < Cap(t)
  {
    && Parked(t, i) == Parked(s, i)
    && t.slots[i].answer == s.slots[i].answer
    && (Parked(s, i) ==> t.queue.cells[i].cur == s.queue.cells[i].cur)
  }

  /** The actors' hands hold the same messages. */
  predicate SameHands(s: State, t: State) {
    && |t.slots| == |s.slots|
    && (s.wd.Send? || t.wd.Send? ==> s.wd == t.wd)
    && (s.ruby.AnswerSend? || t.ruby.AnswerSend? ==> s.ruby == t.ruby)
    && (forall i :: 0 <= i < |s.slots| && HandAt(s, i) ==> t.slots[i].message == s.slots[i].message)
  }

  /** An actor is about to answer the message of slot i. */
  predicate HandAt(s: State, i: nat) {
    (s.wd.Send? && s.wd.entry.slot == i) || (s.ruby.AnswerSend? && s.ruby.slot == i)
  }

  predicate SameTokens(s: State, t: State) {
    && Shape(s) && Shape(t) && Count(s) == Count(t) && Cap(s) == Cap(t)
    && t.tokens == s.tokens && t.responses == s.responses && t.auth == s.auth
    && s.claims <= t.claims
    && (forall m :: 0 <= m < Count(s) ==> SameRole(s.pcs[m], t.pcs[m]) && (s.fates[m].Accepted? ==> t.fates[m] == s.fates[m]))
  }

  lemma FrameKeeps(s: State, t: State)
    requires Claims(s) && Inv(s) && SameTokens(s, t) && SameHands(s, t)
    requires forall i :: 0 <= i < Cap(s) ==> SameWord(s, t, i)
    ensures Inv(t)
  {
    forall i | 0 <= i < Cap(t) ensures SlotToken(t, i) {
      assert SlotToken(s, i) && SameWord(s, t, i);
      if Busy(s, i) { var _ := Occupant(s, i); }
    }
    forall m | 0 <= m < Count(t) ensures MsgToken(t, m) {
      assert MsgToken(s, m);
      if s.tokens[m] == InSlot { assert SameWord(s, t, MySlot(s, m)); }
    }
  }

  lemma ArriveKeeps(s: State, auth: bool, deadline: nat)
    requires Claims(s) && Slots(s) && Watch(s) && Build(s) && Hand(s) && Inv(s)
    ensures Inv(Arrive(s, auth, deadline))
  {
    var t := Arrive(s, auth, deadline);
    forall i | 0 <= i < Cap(t) ensures SlotToken(t, i) {
      assert SlotToken(s, i);
      if Busy(s, i) { var _ := Occupant(s, i); }
    }
    SendersAreOld(s);
    forall m | 0 <= m < Count(t) ensures MsgToken(t, m) {
      if m < Count(s) { assert MsgToken(s, m); }
    }
  }

  /** Whatever message an actor is about to answer, it exists. */
  lemma SendersAreOld(s: State)
    requires Slots(s) && Watch(s) && Build(s) && Hand(s)
    ensures s.wd.Send? ==> Parked(s, s.wd.entry.slot) && s.slots[s.wd.entry.slot].message < Count(s)
    ensures s.ruby.AnswerSend? ==> Parked(s, s.ruby.slot) && s.slots[s.ruby.slot].message < Count(s)
  {
    if s.wd.Send? { assert SlotOk(s, s.wd.entry.slot); }
    if s.ruby.AnswerSend? { assert SlotOk(s, s.ruby.slot) && ClaimedOk(s, s.ruby.slot); }
  }

  // -------------------------------------------------------------- sending

  /** A turned-away AUTH message is answered on the spot; others need no answer. */
  lemma TurnedAwaySendKeeps(s: State, t: State, m: nat)
    requires Claims(s) && Inv(s) && Shape(t) && m < Count(s) == Count(t)
    requires Early(s.pcs[m]) && !Early(t.pcs[m]) && t.pcs[m] != SelfSend
    requires t.pcs == s.pcs[m := t.pcs[m]]
    requires t.tokens == s.tokens[m := if s.auth[m] then Spent else s.tokens[m]]
    requires t.responses == s.responses[m := if s.auth[m] then s.responses[m] + 1 else s.responses[m]]
    requires t.queue == s.queue && t.slots == s.slots && t.stages == s.stages && t.wd == s.wd && t.ruby == s.ruby
    requires t.auth == s.auth && t.fates == s.fates && t.claims == s.claims
    ensures Inv(t)
  {
    assert MsgToken(s, m);
    forall i | 0 <= i < Cap(t) ensures SlotToken(t, i) {
      assert SlotToken(s, i);
    }
    forall j | 0 <= j < Count(t) ensures MsgToken(t, j) { assert MsgToken(s, j); }
  }

  /** An actor holding the token of m uses it and moves on. */
  lemma SendKeeps(s: State, t: State, m: nat, actor: Actor)
    requires Claims(s) && Inv(s) && Shape(t) && m < Count(s) && s.tokens[m] == InHand(actor)
    requires t.tokens == s.tokens[m := Spent] && t.responses == s.responses[m := s.responses[m] + 1]
    requires t.queue == s.queue && t.slots == s.slots && t.stages == s.stages
    requires t.auth == s.auth && t.fates == s.fates && t.claims == s.claims
    requires t.pcs == if actor == ByCallback then s.pcs[m := PubLoad] else s.pcs
    requires if actor == ByWatchdog then s.wd.Send? && !t.wd.Send? else t.wd == s.wd
    requires if actor == ByRuby then s.ruby.AnswerSend? && !t.ruby.AnswerSend? else t.ruby == s.ruby
    ensures Inv(t)
  {
    assert MsgToken(s, m);
    forall i | 0 <= i < Cap(t) ensures SlotToken(t, i) { assert SlotToken(s, i); }
    forall j | 0 <= j < Count(t) ensures MsgToken(t, j) { assert MsgToken(s, j); }
  }

  // -------------------------------------------------------------- the answer word

  /** The token is parked in the slot. */
  lemma SetAnswerKeeps(s: State, m: nat)
    requires Claims(s) && Build(s) && Inv(s) && CallbackReady(s, m) && s.pcs[m] == SetAnswer
    ensures Inv(DoSetAnswer(s, m))
  {
    var t, i := DoSetAnswer(s, m), MySlot(s, m);
    assert MsgToken(s, m) && BuildOk(s, m) && FateOk(s, m);
    forall j | 0 <= j < Cap(t) ensures SlotToken(t, j) {
      assert SlotToken(s, j);
      if j != i && Busy(s, j) { OccupantsDiffer(s, i, j); }
    }
    forall j | 0 <= j < Count(t) ensures MsgToken(t, j) {
      SetAnswerKeepsMessage(s, m, j);
    }
  }

  lemma SetAnswerKeepsMessage(s: State, m: nat, j: nat)
    requires CallbackReady(s, m) && s.pcs[m] == SetAnswer && j < Count(s)
    requires BuildOk(s, m) && MsgToken(s, m) && MsgToken(s, j)
    ensures MsgToken(DoSetAnswer(s, m), j)
  {
    var t, i := DoSetAnswer(s, m), MySlot(s, m);
    assert Parked(t, i) && (s.fates[j].Accepted? && Parked(s, MySlot(s, j)) ==> Parked(t, MySlot(s, j)));
  }

  /** An actor wins the answer word of slot i. */
  lemma WinKeeps(s: State, t: State, i: nat, actor: Actor)
    requires Claims(s) && Slots(s) && Inv(s) && Shape(t) && i < Cap(s) && s.slots[i].answer == Pending
    requires t.slots == s.slots[i := s.slots[i].(answer := Answered)]
    requires var m := s.slots[i].message;
      && t.tokens == Put(s.tokens, m, InHand(actor))
      && t.pcs == if actor == ByCallback && m < Count(s) then s.pcs[m := SelfSend] else s.pcs
    requires actor == ByCallback ==> s.slots[i].message < Count(s) && !Early(s.pcs[s.slots[i].message])
    requires t.queue == s.queue && t.stages == s.stages && t.responses == s.responses
    requires t.auth == s.auth && t.fates == s.fates && t.claims == s.claims
    requires if actor == ByWatchdog then !s.wd.Send? && t.wd.Send? && t.wd.entry.slot == i else t.wd == s.wd
    requires if actor == ByRuby then !s.ruby.AnswerSend? && t.ruby.AnswerSend? && t.ruby.slot == i else t.ruby == s.ruby
    ensures Inv(t)
  {
    var m := s.slots[i].message;
    assert SlotToken(s, i) && SlotOk(s, i);
    assert MsgToken(s, m);
    forall j | 0 <= j < Cap(t) ensures SlotToken(t, j) {
      assert SlotToken(s, j);
      if j != i && Busy(s, j) { OccupantsDiffer(s, i, j); }
    }
    forall j | 0 <= j < Count(t) ensures MsgToken(t, j) { assert MsgToken(s, j); }
  }

  /** A slot whose answer is settled is handed back. */
  lemma ReturnKeeps(s: State, t: State, i: nat)
    requires Claims(s) && Inv(s) && SameTokens(s, t) && SameHands(s, t) && i < Cap(s) && s.slots[i].answer != Pending
    requires forall j :: 0 <= j < Cap(s) && j != i ==> SameWord(s, t, j)
    requires t.slots[i].answer == s.slots[i].answer && !Busy(t, i)
    ensures Inv(t)
  {
    forall j | 0 <= j < Cap(t) ensures SlotToken(t, j) {
      assert SlotToken(s, j);
      if j != i { assert SameWord(s, t, j); if Busy(s, j) { var _ := Occupant(s, j); } }
    }
    forall m | 0 <= m < Count(t) ensures MsgToken(t, m) {
      assert MsgToken(s, m);
      if s.tokens[m] == InSlot {
        var k := MySlot(s, m);
        assert SlotToken(s, k) && FateOk(s, m);
        assert k != i;
        assert SameWord(s, t, k);
      }
    }
  }
}
