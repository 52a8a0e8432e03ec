/** Sequence-gap accounting (record_sequence_gaps in client.c), for callbacks
    that run one after another. */
module Gaps {
  import opened Words

  /** 64-bit wrap-around. */
  function Word(x: int): (w: nat)
    ensures w < WORD
  {
    x % WORD
  }

  type Number = n: nat | n < WORD

  datatype Event = Event(version: nat, eventType: int, globalSeq: Number, seqNum: Number)

  /** Numbers are global from version 4 on, per event type in versions 2 and
      3; older messages and unknown types are not counted. */
  datatype Stream = Global | OfType(index: nat) | Uncounted

  function StreamOf(e: Event, types: nat): Stream {
    if e.version >= 4 then Global
    else if e.version >= 2 && 0 <= e.eventType < types then OfType(e.eventType)
    else Uncounted
  }

  function NumberOf(e: Event): Number {
    if e.version >= 4 then e.globalSeq else e.seqNum
  }

  /** The numbers of one stream, in the order of arrival. */
  function Numbers(h: seq<Event>, types: nat, stream: Stream): seq<Number> {
    if h == [] then []
    else
      var rest, e := Numbers(h[..|h| - 1], types, stream), h[|h| - 1];
      if StreamOf(e, types) == stream then rest + [NumberOf(e)] else rest
  }

  /** What one message adds, given the stream's last number. */
  function Jump(previous: Number, n: Number): Number {
    if n > Word(previous + 1) then Word(n - previous - 1) else 0
  }

  /** What the last message of a history has added. */
  function LastJump(h: seq<Event>, e: Event, types: nat): Number {
    var stream := StreamOf(e, types);
    var ns := Numbers(h, types, stream);
    if stream == Uncounted || ns == [] then 0 else Jump(ns[|ns| - 1], NumberOf(e))
  }

  /** What all messages have added. */
  function Added(h: seq<Event>, types: nat): nat {
    if h == [] then 0 else Added(h[..|h| - 1], types) + LastJump(h[..|h| - 1], h[|h| - 1], types)
  }

  predicate Increasing(ns: seq<nat>) {
    forall i, j :: 0 <= i < j < |ns| ==> ns[i] < ns[j]
  }

  /** The numbers that a stream has skipped between its first and its last. */
  function Missing(ns: seq<nat>): int {
    if ns == [] then 0 else ns[|ns| - 1] - ns[0] + 1 - |ns|
  }

  function MissingByType(h: seq<Event>, types: nat, n: nat): int {
    if n == 0 then 0 else MissingByType(h, types, n - 1) + Missing(Numbers(h, types, OfType(n - 1)))
  }

  ghost predicate AllIncreasing(h: seq<Event>, types: nat) {
    forall stream: Stream :: stream != Uncounted ==> Increasing(Numbers(h, types, stream))
  }

  lemma AppendMissing(ns: seq<Number>, n: Number)
    requires Increasing(ns + [n])
    ensures Increasing(ns)
    ensures Missing(ns + [n]) == Missing(ns) + (if ns == [] then 0 else Jump(ns[|ns| - 1], n))
  {
    var more := ns + [n];
    assert forall i :: 0 <= i < |ns| ==> more[i] == ns[i];
    if ns != [] {
      var previous := ns[|ns| - 1];
      assert more[|ns| - 1] < more[|ns|];
    }
  }

  lemma {:induction false} OthersUnchanged(h: seq<Event>, e: Event, types: nat, n: nat)
    ensures StreamOf(e, types) == Global || StreamOf(e, types) == Uncounted ==>
      MissingByType(h + [e], types, n) == MissingByType(h, types, n)
    ensures StreamOf(e, types).OfType? ==>
      var i := StreamOf(e, types).index;
      MissingByType(h + [e], types, n) == MissingByType(h, types, n)
        + (if i < n then Missing(Numbers(h + [e], types, OfType(i))) - Missing(Numbers(h, types, OfType(i))) else 0)
    decreases n
  {
    if n > 0 {
      OthersUnchanged(h, e, types, n - 1);
      assert (h + [e])[..|h|] == h;
    }
  }

  lemma NumbersStep(h: seq<Event>, e: Event, types: nat, stream: Stream)
    ensures Numbers(h + [e], types, stream)
      == Numbers(h, types, stream) + if StreamOf(e, types) == stream then [NumberOf(e)] else []
    ensures Added(h + [e], types) == Added(h, types) + LastJump(h, e, types)
  {
    assert (h + [e])[..|h|] == h;
  }

  /** The numbers that all streams have skipped. */
  function Total(h: seq<Event>, types: nat): int {
    Missing(Numbers(h, types, Global)) + MissingByType(h, types, types)
  }

  lemma TotalStep(h: seq<Event>, e: Event, types: nat)
    requires AllIncreasing(h + [e], types)
    ensures Total(h + [e], types) == Total(h, types) + LastJump(h, e, types)
  {
    var stream := StreamOf(e, types);
    NumbersStep(h, e, types, stream);
    NumbersStep(h, e, types, Global);
    OthersUnchanged(h, e, types, types);
    assert stream != Uncounted ==> Increasing(Numbers(h + [e], types, stream));
    if stream != Uncounted { AppendMissing(Numbers(h, types, stream), NumberOf(e)); }
  }

  lemma PrefixAllIncreasing(h: seq<Event>, e: Event, types: nat)
    requires AllIncreasing(h + [e], types)
    ensures AllIncreasing(h, types)
  {
    forall stream: Stream | stream != Uncounted ensures Increasing(Numbers(h, types, stream)) {
      NumbersStep(h, e, types, stream);
      assert Increasing(Numbers(h + [e], types, stream));
      if StreamOf(e, types) == stream { AppendMissing(Numbers(h, types, stream), NumberOf(e)); }
    }
  }

  /** The counter telescopes: over any interleaving of streams whose numbers
      increase, the sum of the jumps is what every stream has skipped. */
  lemma {:induction false} GapsTelescope(h: seq<Event>, types: nat)
    requires AllIncreasing(h, types)
    ensures Added(h, types) == Total(h, types)
    decreases |h|
  {
    if h == [] {
      EmptyByType(types, types);
    } else {
      var before, e := h[..|h| - 1], h[|h| - 1];
      assert h == before + [e];
      PrefixAllIncreasing(before, e, types);
      GapsTelescope(before, types);
      NumbersStep(before, e, types, Global);
      TotalStep(before, e, types);
    }
  }

  lemma {:induction false} EmptyByType(types: nat, n: nat)
    ensures MissingByType([], types, n) == 0
    decreases n
  {
    if n > 0 { EmptyByType(types, n - 1); }
  }

  // ---------------------------------------------------------------- what is missing

  function Range(a: nat, b: nat): (r: set<nat>)
    ensures forall n :: n in r <==> a <= n < b
    ensures |r| == if a < b then b - a else 0
    decreases b - a
  {
    if a < b then Range(a, b - 1) + {b - 1} else {}
  }

  /** The numbers between a stream's first and last that never arrived. */
  ghost function Skipped(ns: seq<nat>): set<nat> {
    if ns == [] then {} else set n | n in Range(ns[0], ns[|ns| - 1] + 1) && n !in ns
  }

  /** A new last number skips exactly what lies between it and the one before. */
  lemma SkippedStep(ns: seq<nat>, last: nat)
    requires ns != [] && Increasing(ns) && ns[|ns| - 1] < last
    ensures Skipped(ns + [last]) == Skipped(ns) + Range(ns[|ns| - 1] + 1, last)
    ensures Skipped(ns) !! Range(ns[|ns| - 1] + 1, last)
  {
    var previous, more := ns[|ns| - 1], ns + [last];
    forall n ensures n in Skipped(more) <==> n in Skipped(ns) || n in Range(previous + 1, last) {
      assert n in more <==> n in ns || n == last;
      if n in ns { assert n <= previous; }
    }
  }

  /** `Missing` counts them. */
  lemma {:induction false} MissingCounts(ns: seq<nat>)
    requires Increasing(ns)
    ensures |Skipped(ns)| == Missing(ns)
    decreases |ns|
  {
    if |ns| == 1 {
      assert Skipped(ns) == {};
    } else if |ns| > 1 {
      var before, last := ns[..|ns| - 1], ns[|ns| - 1];
      assert ns == before + [last] && before[|before| - 1] < last;
      MissingCounts(before);
      hide Skipped, Increasing;
      SkippedStep(before, last);
    }
  }

  // ---------------------------------------------------------------- the counters

  lemma WordAdds(a: int, b: int)
    ensures Word(Word(a) + b) == Word(a + b)
  {
    assert Word(a) == a - a / WORD * WORD;
    assert (Word(a) + b) - (a + b) == -(a / WORD) * WORD;
  }

  class Counters {
    const types: nat
    const lastEventSeq: array<Number>
    const seenEventSeq: array<bool>
    var lastGlobalSeq: Number
    var seenGlobalSeq: bool
    var seqGaps: Number
    ghost var history: seq<Event>

    /** `last` and `seen` describe the numbers of a stream. */
    ghost predicate Remembers(stream: Stream, last: Number, seen: bool)
      reads `history
    {
      var ns := Numbers(history, types, stream);
      seen == (ns != []) && (seen ==> last == ns[|ns| - 1])
    }

    ghost predicate Valid()
      reads this, lastEventSeq, seenEventSeq
    {
      && lastEventSeq.Length == seenEventSeq.Length == types
      && Remembers(Global, lastGlobalSeq, seenGlobalSeq)
      && (forall i :: 0 <= i < types ==> Remembers(OfType(i), lastEventSeq[i], seenEventSeq[i]))
      && seqGaps == Word(Added(history, types))
    }

    constructor (types: nat)
      ensures Valid() && this.types == types && history == [] && fresh(lastEventSeq) && fresh(seenEventSeq)
    {
      this.types := types;
      lastEventSeq := new Number[types](_ => 0);
      seenEventSeq := new bool[types](_ => false);
      lastGlobalSeq, seenGlobalSeq, seqGaps := 0, false, 0;
      history := [];
    }

    /** When the numbers of every stream increase, `seq_gaps` is what all
        streams have skipped, whatever their interleaving. */
    lemma CountsWhatWasSkipped()
      requires Valid() && AllIncreasing(history, types)
      ensures seqGaps == Word(Total(history, types))
    {
      GapsTelescope(history, types);
    }

    /** record_sequence_gaps. */
    method Record(e: Event)
      requires Valid()
      modifies this, lastEventSeq, seenEventSeq
      ensures Valid() && history == old(history) + [e]
    {
      forall stream: Stream { NumbersStep(history, e, types, stream); }
      WordAdds(Added(history, types), LastJump(history, e, types));
      hide Numbers, Added, Word;
      if e.version >= 4 {
        var previous: nat, seen: bool := lastGlobalSeq, seenGlobalSeq;
        lastGlobalSeq, seenGlobalSeq := e.globalSeq, true;
        if seen && e.globalSeq > Word(previous + 1) {
          seqGaps := Word(seqGaps + Word(e.globalSeq - previous - 1));
        }
      } else if e.version >= 2 && 0 <= e.eventType < types {
        var index := e.eventType;
        var previous: nat, seen: bool := lastEventSeq[index], seenEventSeq[index];
        lastEventSeq[index], seenEventSeq[index] := e.seqNum, true;
        if seen && e.seqNum > Word(previous + 1) {
          seqGaps := Word(seqGaps + Word(e.seqNum - previous - 1));
        }
      }
      history := history + [e];
    }
  }
}
