/** The whole invariant, and that every step of every actor keeps it. */
module Steps {
  import opened Rings
  import opened Protocol
  import opened Structure
  import Handshake
  import Tokens
  import Lifecycle
  import Ownership
  import Arming
  import Wakeup
  import Counters

  /** Who owns which slot, and what the slots contain. */
  ghost predicate Base(s: State) {
    && Shape(s) && Rings.Inv(s.queue) && Rings.Inv(s.requests)
    && Claims(s) && Pcs(s) && Build(s)
    && Handshake.Slots(s) && Handshake.Watch(s) && Handshake.Hand(s)
  }

  /** Slots, tokens and the close protocol. */
  ghost predicate Core(s: State) { Base(s) && Tokens.Inv(s) && Lifecycle.Inv(s) }

  /** What rests on the core without supporting it. */
  ghost predicate Rest(s: State) {
    && Ownership.Inv(s)
    && Arming.Requests(s) && Arming.Holds(s)
    && Wakeup.Inv(s)
    && Counters.Inv(s)
  }

  ghost predicate Good(s: State) { Core(s) && Rest(s) }

  lemma GoodShape(s: State)
    requires Good(s)
    ensures Shape(s)
  {}

  /** The two program points are alike for every layer. */
  predicate Alike(a: CallbackPc, b: CallbackPc) {
    && SameClass(a, b) && Tokens.SameRole(a, b) && Ownership.SameCare(a, b) && Wakeup.SameVoice(a, b)
    && Lifecycle.Accepting(a) == Lifecycle.Accepting(b)
    && Counters.Undecided(a) == Counters.Undecided(b)
    && !Arming.Requesting(a) && !Arming.Requesting(b) && (Arming.BeforeArm(b) ==> Arming.BeforeArm(a))
    && Arming.StillArming(a) == Arming.StillArming(b)
    && a != Done && b != Done
  }

  /** A callback moves between like points, touching at most the depth maximum. */
  predicate Moves(s: State, t: State, m: nat) {
    && Shape(s) && m < Count(s) == Count(t)
    && t == s.(pcs := s.pcs[m := t.pcs[m]], depthMax := t.depthMax, topDepth := t.topDepth)
    && Alike(s.pcs[m], t.pcs[m])
  }

  lemma MoveKeepsCore(s: State, t: State, m: nat)
    requires Core(s) && Moves(s, t, m) && PcOk(t, m)
    ensures Core(t)
  {
    MovesKeeps(s, t, m);
    Handshake.UntouchedKeeps(s, t);
    Tokens.FrameKeeps(s, t);
    Lifecycle.CallbackKeeps(s, t, m);
  }

  /** A callback moves without a word to Ruby or to the request ring. */
  predicate Silent(s: State, t: State, m: nat) {
    && Arming.CallbackMoves(s, t, m)
    && t.ruby == s.ruby && t.notified == s.notified && t.pipe == s.pipe && t.broken == s.broken
    && t.queue.deq == s.queue.deq && Wakeup.Hushed(s, t, m)
    && (t.claims == s.claims || (t.claims == s.claims + [m] && !Wakeup.Announced(t.pcs[m])))
  }

  /** The layers above the core that such a move leaves alone, once it is known who
      owns the message. */
  lemma SilentKeepsRest(s: State, t: State, m: nat)
    requires Good(s) && Core(t) && Silent(s, t, m) && Ownership.Inv(t)
    requires forall j :: 0 <= j < Count(s) && t.tokens[j] == InSlot ==>
      s.tokens[j] == InSlot || (j == m && Arming.BeforeArm(s.pcs[m]))
    requires t.tokens[m] == InSlot && (Arming.StillArming(s.pcs[m]) || s.tokens[m] != InSlot) ==> Arming.StillArming(t.pcs[m])
    requires if Counters.Undecided(t.pcs[m]) == Counters.Undecided(s.pcs[m]) then t.deciding == s.deciding
      else t.deciding == if Counters.Undecided(t.pcs[m]) then s.deciding + {m} else s.deciding - {m}
    requires Counters.Totals(t)
    requires s.depthMax <= t.depthMax <= Cap(s) && t.depthMax == t.topDepth && Counters.DepthOk(t, m)
    ensures Rest(t)
  {
    hide Rings.Inv, Build, Handshake.Slots, Handshake.Watch, Handshake.Hand, Tokens.Inv, Lifecycle.Inv;
    Arming.CallbackKeepsRequests(s, t, m);
    Arming.CallbackKeepsHolds(s, t, m);
    Wakeup.FrameKeeps(s, t);
    Counters.CallbackKeeps(s, t, m);
  }

  lemma MoveKeepsRest(s: State, t: State, m: nat)
    requires Good(s) && Core(t) && Moves(s, t, m)
    requires s.depthMax <= t.depthMax <= Cap(s) && t.depthMax == t.topDepth && Counters.DepthOk(t, m)
    ensures Rest(t)
  {
    Ownership.FrameKeeps(s, t);
    SilentKeepsRest(s, t, m);
  }
}
