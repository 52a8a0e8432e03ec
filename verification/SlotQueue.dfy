/** The slot queue (queue.c) over slot objects, with its compare-and-swap loops.

    Between two atomic accesses of an operation, other threads may make any
    number of moves on the ring, and a weak compare-and-swap may fail for no
    reason; both are drawn from a finite budget, which is what makes the loops
    end.  Each operation is proved to act at one instant: the ring goes through
    some moves of the others, then through the operation's own. */
module SlotQueue {
  import opened Rings
  import opened Slots

  // ------------------------------------------------------------------- moves

  /** What another thread can do to the ring in one atomic step. */
  datatype Move = Claims | Publishes(i: nat) | Takes | Returns(i: nat)

  /** The move is open to a thread that does not own the cells in `mine`. */
  ghost predicate CanMove(r: Ring, move: Move, mine: set<nat>) {
    && 0 < r.cap == |r.cells|
    && match move
       case Claims => Claimable(r)
       case Publishes(i) => i < r.cap && i !in mine && r.cells[i].phase == Claimed
       case Takes => Takeable(r)
       case Returns(i) => i < r.cap && i !in mine && r.cells[i].phase == Held
  }

  ghost function Moved(r: Ring, move: Move, mine: set<nat>): Ring
    requires CanMove(r, move, mine)
  {
    match move
    case Claims => Claim(r)
    case Publishes(i) => Publish(r, i, r.cells[i].cur + 1)
    case Takes => Take(r)
    case Returns(i) => Return(r, i, r.cells[i].cur + r.cap)
  }

  ghost predicate Step(r: Ring, t: Ring, mine: set<nat>) {
    exists move :: CanMove(r, move, mine) && t == Moved(r, move, mine)
  }

  /** The rings between the start of an operation and the moment it acts:
      each comes from the one before by a move of another thread. */
  ghost predicate Trail(rings: seq<Ring>, mine: set<nat>) {
    0 < |rings| && forall i :: 0 <= i < |rings| - 1 ==> Step(rings[i], rings[i + 1], mine)
  }

  function Last(rings: seq<Ring>): Ring
    requires 0 < |rings|
  {
    rings[|rings| - 1]
  }

  /** What the other threads leave as it is. */
  ghost predicate Follows(r: Ring, t: Ring, mine: set<nat>) {
    && Inv(t) && t.cap == r.cap == |r.cells| && r.enq <= t.enq && r.deq <= t.deq
    && (Claimable(r) && t.enq == r.enq ==> Claimable(t))
    && (Takeable(r) && t.deq == r.deq ==> Takeable(t))
    && (forall i :: 0 <= i < r.cap && i in mine ==> t.cells[i] == r.cells[i])
  }

  /** The cells in `mine` are claimed or held. */
  ghost predicate Mine(r: Ring, mine: set<nat>) {
    forall i :: i in mine ==> i < |r.cells| && (r.cells[i].phase == Claimed || r.cells[i].phase == Held)
  }

  lemma MoveFollows(r: Ring, move: Move, mine: set<nat>)
    requires Inv(r) && CanMove(r, move, mine) && Mine(r, mine)
    ensures Follows(r, Moved(r, move, mine), mine) && Mine(Moved(r, move, mine), mine)
  {
    match move
    case Claims => ClaimKeeps(r);
    case Publishes(i) => PublishKeeps(r, i);
    case Takes => TakeKeeps(r);
    case Returns(i) => ReturnKeeps(r, i);
  }

  lemma FollowsOn(r: Ring, m: Ring, t: Ring, mine: set<nat>)
    requires Follows(r, m, mine) && Follows(m, t, mine)
    ensures Follows(r, t, mine)
  {}

  lemma FollowsSelf(r: Ring, mine: set<nat>)
    requires Inv(r)
    ensures Follows(r, r, mine)
  {}

  lemma TrailGrows(rings: seq<Ring>, move: Move, mine: set<nat>)
    requires Trail(rings, mine) && CanMove(Last(rings), move, mine)
    ensures Trail(rings + [Moved(Last(rings), move, mine)], mine)
  {
    var more := rings + [Moved(Last(rings), move, mine)];
    forall i | 0 <= i < |more| - 1 ensures Step(more[i], more[i + 1], mine) {
      if i < |rings| - 1 { assert Step(rings[i], rings[i + 1], mine); }
    }
  }

  // ------------------------------------------------------------------- queue

  /** The reader counts that the loads of one spin see: sooner or later there is none. */
  type Loads = readers: nat -> nat | exists n :: readers(n) == 0 witness (n: nat) => 0

  class Queue {
    const slots: seq<Slot>
    ghost const pool: set<Slot>
    var enqueuePosition: nat
    var dequeuePosition: nat
    var depthMax: nat
    ghost var ring: Ring

    /** The words of the queue hold what the ring says. */
    ghost predicate Tied()
      reads `enqueuePosition, `dequeuePosition, `ring, pool
    {
      && Inv(ring) && ring.cap == |slots| && Numbered(slots)
      && enqueuePosition == ring.enq && dequeuePosition == ring.deq
      && forall i :: 0 <= i < |slots| ==>
        && slots[i] in pool && slots[i].sequence == ring.cells[i].sequence
        && (ring.cells[i].phase != Free ==> slots[i].position == ring.cells[i].cur)
    }

    // One atomic access each

    /** The successful CAS on the enqueue position, and the claimer's store of the position. */
    method DoClaim() returns (i: nat)
      requires Tied() && Claimable(ring)
      modifies `enqueuePosition, `ring, pool`position
      ensures Tied() && ring == Claim(old(ring)) && i == At(old(ring).enq, old(ring).cap) < |slots|
      ensures slots[i].position == old(ring).enq
    {
      ClaimKeeps(ring);
      i := At(enqueuePosition, |slots|);
      enqueuePosition := enqueuePosition + 1;
      ring := Claim(ring);
      slots[i].position := enqueuePosition - 1;
    }

    method DoTake() returns (i: nat)
      requires Tied() && Takeable(ring)
      modifies `dequeuePosition, `ring
      ensures Tied() && ring == Take(old(ring)) && i == At(old(ring).deq, old(ring).cap) < |slots|
    {
      TakeKeeps(ring);
      i := At(dequeuePosition, |slots|);
      dequeuePosition := dequeuePosition + 1;
      ring := Take(ring);
    }

    method DoPublish(i: nat)
      requires Tied() && i < |slots| && ring.cells[i].phase == Claimed
      modifies `ring, pool`sequence
      ensures Tied() && ring == Publish(old(ring), i, old(ring).cells[i].cur + 1)
    {
      PublishKeeps(ring, i);
      slots[i].sequence := slots[i].position + 1;
      ring := Publish(ring, i, ring.cells[i].cur + 1);
    }

    method DoReturn(i: nat)
      requires Tied() && i < |slots| && ring.cells[i].phase == Held
      modifies `ring, pool`sequence
      ensures Tied() && ring == Return(old(ring), i, old(ring).cells[i].cur + old(ring).cap)
    {
      ReturnKeeps(ring, i);
      slots[i].sequence := slots[i].position + |slots|;
      ring := Return(ring, i, ring.cells[i].cur + ring.cap);
    }

    method Do(move: Move, ghost mine: set<nat>)
      requires Tied() && CanMove(ring, move, mine)
      modifies `enqueuePosition, `dequeuePosition, `ring, pool`sequence, pool`position
      ensures Tied() && ring == Moved(old(ring), move, mine)
    {
      match move
      case Claims => var _ := DoClaim();
      case Publishes(i) => DoPublish(i);
      case Takes => var _ := DoTake();
      case Returns(i) => DoReturn(i);
    }

    /** Whether the sequence numbers allow a move to another thread. */
    predicate Open(move: Move, mine: set<nat>)
      requires Tied()
      reads `enqueuePosition, `dequeuePosition, `ring, pool
      ensures Open(move, mine) <==> CanMove(ring, move, mine)
    {
      match move
      case Claims => slots[At(enqueuePosition, |slots|)].sequence == enqueuePosition
      case Takes => slots[At(dequeuePosition, |slots|)].sequence == dequeuePosition + 1
      case Publishes(i) => i < |slots| && i !in mine && PhaseOf(i) == Claimed
      case Returns(i) => i < |slots| && i !in mine && PhaseOf(i) == Held
    }

    function PhaseOf(i: nat): (phase: Phase)
      requires Tied() && i < |slots|
      reads `enqueuePosition, `dequeuePosition, `ring, pool
      ensures phase == ring.cells[i].phase
    {
      PhaseDecoded(ring, i);
      Decode(slots[i].sequence, i, enqueuePosition, dequeuePosition, |slots|).0
    }

    /** Any number of moves of other threads, each for one unit of the budget;
        other publishers may raise the depth maximum. */
    method Others(budget: nat, mine: set<nat>, ghost rings: seq<Ring>) returns (left: nat, ghost trail: seq<Ring>)
      requires Tied() && Mine(ring, mine) && Trail(rings, mine) && Last(rings) == ring && depthMax <= |slots|
      modifies `enqueuePosition, `dequeuePosition, `depthMax, `ring, pool`sequence, pool`position
      ensures Tied() && Follows(old(ring), ring, mine) && Mine(ring, mine) && old(depthMax) <= depthMax <= |slots|
      ensures Trail(trail, mine) && trail[0] == rings[0] && Last(trail) == ring
      ensures |trail| + left == |rings| + budget && left <= budget
      ensures left == budget ==> ring == old(ring) && depthMax == old(depthMax)
    {
      left, trail := budget, rings;
      FollowsSelf(ring, mine);
      hide Tied, Follows, Trail, CanMove, Moved, Mine;
      var move: Move := *;
      while left > 0 && Open(move, mine)
        invariant Tied() && Follows(old(ring), ring, mine) && Mine(ring, mine) && old(depthMax) <= depthMax <= |slots|
        invariant Trail(trail, mine) && 0 < |trail| && trail[0] == rings[0] && Last(trail) == ring
        invariant |trail| + left == |rings| + budget && left <= budget
        invariant left == budget ==> ring == old(ring) && depthMax == old(depthMax)
      {
        MoveFollows(ring, move, mine);
        TrailGrows(trail, move, mine);
        Do(move, mine);
        FollowsOn(old(ring), trail[|trail| - 1], ring, mine);
        trail := trail + [ring];
        left := left - 1;
        var depth: nat := *;
        if depthMax < depth <= |slots| { depthMax := depth; }
        move := *;
      }
    }

    /** A weak compare-and-swap may fail for no reason. */
    method Spurious(budget: nat) returns (fails: bool, left: nat)
      ensures if fails then budget > 0 && left == budget - 1 else left == budget
    {
      fails := *;
      fails := fails && budget > 0;
      left := if fails then budget - 1 else budget;
    }

    /** esrb_queue_enqueue. */
    method Enqueue(budget: nat) returns (slot: Slot?, ghost trail: seq<Ring>)
      requires Tied() && depthMax <= |slots|
      modifies `enqueuePosition, `dequeuePosition, `depthMax, `ring, pool`sequence, pool`position
      ensures Tied() && depthMax <= |slots|
      ensures Trail(trail, {}) && trail[0] == old(ring) && |trail| <= budget + 1
      ensures Inv(Last(trail)) && Last(trail).cap == |slots|
      ensures if Claimable(Last(trail))
        then
          && ring == Claim(Last(trail))
          && slot == slots[At(Last(trail).enq, |slots|)] && slot.position == Last(trail).enq
        else ring == Last(trail) && slot == null
    {
      var left := budget;
      trail := [ring];
      var position := enqueuePosition;
      while true
        invariant Tied() && depthMax <= |slots| && position == ring.enq
        invariant Trail(trail, {}) && 0 < |trail| && trail[0] == old(ring) && Last(trail) == ring
        invariant |trail| + left <= budget + 1
        decreases left
      {
        left, trail := Others(left, {}, trail);
        var i := At(position, |slots|);
        var sequence := slots[i].sequence;
        EnqueueRead(ring, position);
        if sequence == position {
          left, trail := Others(left, {}, trail);
          var fails: bool;
          fails, left := Spurious(left);
          if enqueuePosition == position && !fails {
            i := DoClaim();
            return slots[i], trail;
          }
          position := enqueuePosition;
        } else if sequence < position {
          return null, trail;
        } else {
          left, trail := Others(left, {}, trail);
          position := enqueuePosition;
        }
      }
    }

    /** esrb_queue_dequeue. */
    method Dequeue(budget: nat) returns (slot: Slot?, ghost trail: seq<Ring>)
      requires Tied() && depthMax <= |slots|
      modifies `enqueuePosition, `dequeuePosition, `depthMax, `ring, pool`sequence, pool`position
      ensures Tied() && depthMax <= |slots|
      ensures Trail(trail, {}) && trail[0] == old(ring) && |trail| <= budget + 1
      ensures Inv(Last(trail)) && Last(trail).cap == |slots|
      ensures if Takeable(Last(trail))
        then
          && ring == Take(Last(trail))
          && slot == slots[At(Last(trail).deq, |slots|)] && slot.position == Last(trail).deq
        else ring == Last(trail) && slot == null
    {
      var left := budget;
      trail := [ring];
      var position := dequeuePosition;
      while true
        invariant Tied() && depthMax <= |slots| && position == ring.deq
        invariant Trail(trail, {}) && 0 < |trail| && trail[0] == old(ring) && Last(trail) == ring
        invariant |trail| + left <= budget + 1
        decreases left
      {
        left, trail := Others(left, {}, trail);
        var i := At(position, |slots|);
        var sequence := slots[i].sequence;
        DequeueRead(ring, position);
        if sequence == position + 1 {
          left, trail := Others(left, {}, trail);
          var fails: bool;
          fails, left := Spurious(left);
          if dequeuePosition == position && !fails {
            TakeKeeps(ring);
            i := DoTake();
            return slots[i], trail;
          }
          position := dequeuePosition;
        } else if sequence < position + 1 {
          return null, trail;
        } else {
          left, trail := Others(left, {}, trail);
          position := dequeuePosition;
        }
      }
    }

    /** The loop of esrb_queue_publish that raises the depth maximum. */
    method RaiseDepth(depth: int, i: nat, budget: nat, ghost rings: seq<Ring>)
      returns (left: nat, ghost trail: seq<Ring>)
      requires Tied() && Mine(ring, {i}) && Trail(rings, {i}) && Last(rings) == ring
      requires depthMax <= |slots| && depth <= |slots|
      modifies `enqueuePosition, `dequeuePosition, `depthMax, `ring, pool`sequence, pool`position
      ensures Tied() && Follows(old(ring), ring, {i}) && Mine(ring, {i})
      ensures Trail(trail, {i}) && trail[0] == rings[0] && Last(trail) == ring
      ensures |trail| + left <= |rings| + budget && left <= budget
      ensures old(depthMax) <= depthMax <= |slots| && depth <= depthMax
      ensures left == budget ==> depthMax == if depth > old(depthMax) then depth else old(depthMax)
    {
      hide Tied, Follows, Mine;
      left, trail := Others(budget, {i}, rings);
      var maximum := depthMax;
      while depth > maximum
        invariant Tied() && Mine(ring, {i}) && Follows(old(ring), ring, {i}) && old(depthMax) <= depthMax <= |slots|
        invariant Trail(trail, {i}) && 0 < |trail| && trail[0] == rings[0] && Last(trail) == ring
        invariant |trail| + left <= |rings| + budget && left <= budget && maximum == depthMax
        invariant left == budget ==> depthMax == old(depthMax)
        decreases left
      {
        ghost var before := ring;
        left, trail := Others(left, {i}, trail);
        FollowsOn(old(ring), before, ring, {i});
        var fails: bool;
        fails, left := Spurious(left);
        if depthMax == maximum && !fails {
          depthMax := depth;
          return;
        }
        maximum := depthMax;
      }
    }

    /** esrb_queue_publish, by the thread that has claimed the slot. */
    method PublishSlot(slot: Slot, budget: nat) returns (ghost depth: int, ghost trail: seq<Ring>)
      requires Tied() && depthMax <= |slots|
      requires slot.number < |slots| && slots[slot.number] == slot && ring.cells[slot.number].phase == Claimed
      modifies `enqueuePosition, `dequeuePosition, `depthMax, `ring, pool`sequence, pool`position
      ensures Tied() && Trail(trail, {slot.number}) && trail[0] == old(ring) && |trail| <= budget + 1
      ensures Follows(old(ring), Last(trail), {slot.number})
      ensures ring == Publish(Last(trail), slot.number, slot.position + 1)
      ensures depth == old(ring).cells[slot.number].cur + 1 - old(ring).deq && 1 <= depth <= |slots|
      ensures old(depthMax) <= depthMax <= |slots| && depth <= depthMax
      ensures budget == 0 ==> depthMax == if depth > old(depthMax) then depth else old(depthMax)
    {
      var i := slot.number;
      assert CellOk(ring, i);
      trail := [ring];
      var d := slot.position + 1 - dequeuePosition;
      depth := d;
      var left: nat;
      left, trail := RaiseDepth(d, i, budget, trail);
      ghost var before := ring;
      left, trail := Others(left, {i}, trail);
      FollowsOn(old(ring), before, ring, {i});
      DoPublish(slot.number);
    }

    /** esrb_queue_disarm.  `readers` gives the counts that its loads see, one
        after the other; the loop ends with the first zero. */
    method Disarm(slot: Slot, readers: Loads) returns (n: nat)
      requires slot in pool
      modifies slot`occupied
      ensures !slot.occupied
      ensures readers(n) == 0 && forall k: nat :: k < n ==> readers(k) != 0
    {
      slot.occupied := false;
      ghost var last: nat :| readers(last) == 0;
      n := 0;
      while readers(n) != 0
        invariant n <= last && forall k: nat :: k < n ==> readers(k) != 0
        decreases last - n
      {
        n := n + 1;
      }
    }

    /** esrb_queue_release, by the thread that holds the slot. */
    method Release(slot: Slot, budget: nat, readers: Loads) returns (ghost trail: seq<Ring>)
      requires Tied() && depthMax <= |slots|
      requires slot.number < |slots| && slots[slot.number] == slot && ring.cells[slot.number].phase == Held
      modifies `enqueuePosition, `dequeuePosition, `depthMax, `ring, pool`sequence, pool`position, slot`occupied
      ensures Tied() && Trail(trail, {slot.number}) && trail[0] == old(ring) && |trail| <= budget + 1
      ensures Follows(old(ring), Last(trail), {slot.number})
      ensures ring == Return(Last(trail), slot.number, slot.position + |slots|) && depthMax <= |slots|
      ensures !slot.occupied
    {
      var _ := Disarm(slot, readers);
      var left: nat;
      left, trail := Others(budget, {slot.number}, [ring]);
      DoReturn(slot.number);
    }

    /** esrb_queue_init refuses every capacity but the powers of two from two on. */
    static method Init(capacity: nat) returns (queue: Queue?)
      ensures queue != null <==> Accepted(capacity)
      ensures queue != null ==> fresh(queue) && fresh(queue.pool) && queue.Tied()
      ensures queue != null ==> queue.ring == Start(capacity) && queue.depthMax == 0
    {
      if capacity < 2 || And(capacity, capacity - 1) != 0 {
        return null;
      }
      var slots: seq<Slot>, index := [], 0;
      while index < capacity
        invariant index == |slots| <= capacity
        invariant forall k :: 0 <= k < index ==> fresh(slots[k]) && slots[k].number == k == slots[k].sequence
      {
        var slot := new Slot(index);
        slots := slots + [slot];
        index := index + 1;
      }
      queue := new Queue(slots);
    }

    constructor (slots: seq<Slot>)
      requires 2 <= |slots| && Numbered(slots) && forall k :: 0 <= k < |slots| ==> slots[k].sequence == k
      ensures Tied() && ring == Start(|slots|) && depthMax == 0 && this.slots == slots
      ensures forall s :: s in pool <==> s in slots
    {
      this.slots := slots;
      pool := set s | s in slots;
      enqueuePosition, dequeuePosition, depthMax := 0, 0, 0;
      ring := Start(|slots|);
      new;
      StartInv(|slots|);
    }
  }
}
