/** The watchdog's request ring and the turn of its main loop (watchdog.c),
    for one thread at a time: what the ring is as a bounded queue, and what a
    turn does to the heap.  Protocol has the interleavings. */
module WatchdogLoop {
  import opened Rings
  import opened Slots
  import opened DeadlineHeap
  import Protocol

  class Requests {
    const sequences: array<nat>
    const items: array<HeapEntry>
    var enqueuePosition: nat
    var dequeuePosition: nat

    // What the sequence numbers and the items stand for
    ghost var ring: Ring
    ghost var waiting: seq<HeapEntry>

    ghost predicate Valid()
      reads this, sequences, items
    {
      && Inv(ring) && ring.cap == sequences.Length == items.Length
      && enqueuePosition == ring.enq && dequeuePosition == ring.deq && |waiting| == ring.enq - ring.deq
      && (forall i :: 0 <= i < ring.cap ==>
            sequences[i] == ring.cells[i].sequence && (ring.cells[i].phase == Free || ring.cells[i].phase == Published))
      && (forall p: nat :: ring.deq <= p < ring.enq ==> Holds(p))
    }

    /** Position p's cell holds the request that is waiting there. */
    ghost predicate Holds(p: nat)
      requires 0 < items.Length
      reads `ring, `waiting, items
    {
      ring.deq <= p < ring.deq + |waiting| && items[At(p, items.Length)] == waiting[p - ring.deq]
    }

    constructor (capacity: nat)
      requires 2 <= capacity
      ensures Valid() && waiting == [] && fresh(sequences) && fresh(items) && items.Length == capacity
    {
      sequences := new nat[capacity](i => i);
      items := new HeapEntry[capacity](_ => HeapEntry(null, 0, 0));
      enqueuePosition, dequeuePosition := 0, 0;
      ring, waiting := Start(capacity), [];
      StartInv(capacity);
    }

    /** A position can be claimed exactly when the ring is not full. */
    lemma ClaimableIffRoom()
      requires Valid()
      ensures Claimable(ring) <==> |waiting| < items.Length
    {
      EnqueueRead(ring, ring.enq);
      var i := At(ring.enq, ring.cap);
      assert CellOk(ring, i);
      if Claimable(ring) { ClaimKeeps(ring); }
      if |waiting| == items.Length { FullMeansNotFree(ring); }
    }

    lemma TakeableIffAny()
      requires Valid()
      ensures Takeable(ring) <==> 0 < |waiting|
    {
      DequeueRead(ring, ring.deq);
      if Takeable(ring) { TakeKeeps(ring); }
      if 0 < |waiting| { assert Stands(ring, ring.deq) && CellOk(ring, At(ring.deq, ring.cap)); }
    }

    /** The stores of a producer whose compare-and-swap has succeeded. */
    method Append(e: HeapEntry)
      requires Valid() && Claimable(ring)
      modifies this, sequences, items
      ensures Valid() && waiting == old(waiting) + [e]
    {
      var p := enqueuePosition;
      var i := At(p, items.Length);
      ClaimKeeps(ring);
      PublishKeeps(Claim(ring), i);
      enqueuePosition := p + 1;
      items[i] := e;
      sequences[i] := p + 1;
      ring := Publish(Claim(ring), i, p + 1);
      waiting := waiting + [e];
      forall q: nat | ring.deq <= q < ring.enq ensures Holds(q) {
        if q < p {
          assert old(Holds(q));
          if At(q, ring.cap) == i { AtUnique(q, p, ring.cap); }
        }
      }
    }

    /** esrb_watchdog_arm: refuses exactly when the ring is full.  The weak
        compare-and-swap may fail up to `failures` times for no reason. */
    method Arm(e: HeapEntry, failures: nat) returns (armed: bool)
      requires Valid()
      modifies this, sequences, items
      ensures Valid() && armed == (|old(waiting)| < items.Length)
      ensures waiting == if armed then old(waiting) + [e] else old(waiting)
    {
      ClaimableIffRoom();
      hide Valid;
      var left := failures;
      var p := enqueuePosition;
      while sequences[At(p, items.Length)] == p
        invariant Valid() && p == enqueuePosition && 0 < items.Length == sequences.Length
        invariant waiting == old(waiting) && ring == old(ring)
        invariant Claimable(ring) <==> |waiting| < items.Length
        decreases left
      {
        var fails: bool := *;
        if !fails || left == 0 {
          Append(e);
          return true;
        }
        left := left - 1;
      }
      armed := false;
    }

    /** request_pop: the oldest request, if there is one. */
    method Pop() returns (popped: bool, e: HeapEntry)
      requires Valid()
      modifies this, sequences
      ensures Valid() && popped == (0 < |old(waiting)|)
      ensures if popped then [e] + waiting == old(waiting) else waiting == old(waiting)
    {
      TakeableIffAny();
      e := HeapEntry(null, 0, 0);
      var p := dequeuePosition;
      var i := At(p, items.Length);
      if sequences[i] != p + 1 {
        return false, e;
      }
      TakeKeeps(ring);
      ReturnKeeps(Take(ring), i);
      assert Holds(p);
      dequeuePosition := p + 1;
      e := items[i];
      sequences[i] := p + items.Length;
      ring := Return(Take(ring), i, p + items.Length);
      waiting := waiting[1..];
      forall q: nat | ring.deq <= q < ring.enq ensures Holds(q) {
        assert old(Holds(q));
      }
      popped := true;
    }
  }

  // -------------------------------------------------------------------- turn

  ghost predicate AllOwned(slots: seq<Slot>, es: seq<HeapEntry>) {
    forall i :: 0 <= i < |es| ==> Owned(slots, es[i].slot)
  }

  /** The content after heap_set of every request in turn. */
  ghost function SetAll(content: Content, slots: seq<Slot>, es: seq<HeapEntry>): Content
    requires AllOwned(slots, es)
    decreases |es|
  {
    if es == [] then content else SetAll(content[es[0].slot.number := View(es[0])], slots, es[1..])
  }

  lemma SetFirst(content: Content, slots: seq<Slot>, es: seq<HeapEntry>, e: HeapEntry, rest: seq<HeapEntry>)
    requires AllOwned(slots, es) && es == [e] + rest
    ensures Owned(slots, e.slot) && AllOwned(slots, rest)
    ensures SetAll(content, slots, es) == SetAll(content[e.slot.number := View(e)], slots, rest)
  {
    assert es[0] == e && es[1..] == rest;
    forall i | 0 <= i < |rest| ensures Owned(slots, rest[i].slot) { assert es[i + 1] == rest[i]; }
  }

  /** A slot that nobody requests keeps its entry. */
  lemma {:induction false} UnrequestedKeeps(content: Content, slots: seq<Slot>, es: seq<HeapEntry>, k: nat)
    requires AllOwned(slots, es) && forall j :: 0 <= j < |es| ==> es[j].slot.number != k
    ensures k in SetAll(content, slots, es) <==> k in content
    ensures k in content ==> SetAll(content, slots, es)[k] == content[k]
    decreases |es|
  {
    if es != [] {
      SetFirst(content, slots, es, es[0], es[1..]);
      UnrequestedKeeps(content[es[0].slot.number := View(es[0])], slots, es[1..], k);
    }
  }

  /** A slot's last request wins. */
  lemma {:induction false} LastRequestWins(content: Content, slots: seq<Slot>, es: seq<HeapEntry>, i: nat)
    requires AllOwned(slots, es) && i < |es|
    requires forall j :: i < j < |es| ==> es[j].slot.number != es[i].slot.number
    ensures es[i].slot.number in SetAll(content, slots, es)
    ensures SetAll(content, slots, es)[es[i].slot.number] == View(es[i])
    decreases |es|
  {
    var rest, next := es[1..], content[es[0].slot.number := View(es[0])];
    SetFirst(content, slots, es, es[0], rest);
    if i == 0 {
      UnrequestedKeeps(next, slots, rest, es[0].slot.number);
    } else {
      assert rest[i - 1] == es[i];
      LastRequestWins(next, slots, rest, i - 1);
    }
  }

  /** The first inner loop of esrb_watchdog_main.  No request is lost, as heap
      and queue share one capacity. */
  method TakeRequests(requests: Requests, heap: Heap)
    requires requests.Valid() && heap.Valid() && requests.items != heap.entries
    requires |heap.slots| <= heap.entries.Length && AllOwned(heap.slots, requests.waiting)
    modifies requests, requests.sequences
    modifies heap`size, heap`es, heap`indices, heap`content, heap.entries, heap.pool`watchdogIndex
    ensures requests.Valid() && heap.Valid() && requests.waiting == []
    ensures heap.content == SetAll(old(heap.content), heap.slots, old(requests.waiting))
  {
    ghost var goal := SetAll(heap.content, heap.slots, requests.waiting);
    hide SetAll, AllOwned, Owned;
    while true
      invariant requests.Valid() && heap.Valid()
      invariant AllOwned(heap.slots, requests.waiting) && SetAll(heap.content, heap.slots, requests.waiting) == goal
      decreases |requests.waiting|
    {
      ghost var es := requests.waiting;
      var popped, e := requests.Pop();
      if !popped {
        NothingToSet(heap.content, heap.slots, es);
        return;
      }
      SetFirst(heap.content, heap.slots, es, e, requests.waiting);
      SetFits(heap, e);
      heap.HeapSet(e);
    }
  }

  lemma NothingToSet(content: Content, slots: seq<Slot>, es: seq<HeapEntry>)
    requires AllOwned(slots, es) && es == []
    ensures SetAll(content, slots, es) == content
  {}

  lemma SetFits(heap: Heap, e: HeapEntry)
    requires heap.Valid() && |heap.slots| <= heap.entries.Length && Owned(heap.slots, e.slot)
    ensures e.slot.number in heap.content || |heap.es| < heap.entries.Length
  {
    if e.slot.number !in heap.content { heap.NewEntryFits(e.slot); }
  }

  /** One turn of esrb_watchdog_main: every request goes into the heap, and
      then what is due comes out. */
  method Turn(requests: Requests, heap: Heap, clock: nat -> nat) returns (due: seq<Protocol.Entry>, now: nat)
    requires requests.Valid() && heap.Valid() && requests.items != heap.entries
    requires |heap.slots| <= heap.entries.Length && AllOwned(heap.slots, requests.waiting)
    modifies requests, requests.sequences
    modifies heap`size, heap`es, heap`indices, heap`content, heap.entries, heap.pool`watchdogIndex
    ensures requests.Valid() && heap.Valid() && requests.waiting == [] && now == clock(|due|)
    ensures var all := SetAll(old(heap.content), heap.slots, old(requests.waiting));
      TakenFromRoot(all, due) && heap.content == After(all, due)
    ensures NothingDue(heap.content, now) && AllDue(due, clock)
  {
    hide SetAll, AllOwned, After, TakenFromRoot, NothingDue, AllDue;
    TakeRequests(requests, heap);
    due, now := heap.Pass(clock);
  }
}
