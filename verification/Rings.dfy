/** The bounded ring shared by the slot queue and by the watchdog's request
    queue: a power-of-two array of cells, each carrying a sequence number that
    alone tells which of four phases the cell is in.

    `cur` and `phase` are history variables: they name the position a cell
    stands for and its phase.  No step reads them to decide what to do; `Inv`
    ties them to the sequence number, and `PhaseDecoded` shows that the
    sequence number and the two positions determine them. */
module Rings {

  datatype Phase = Free | Claimed | Published | Held

  datatype Cell = Cell(sequence: nat, cur: nat, phase: Phase)

  datatype Ring = Ring(cap: nat, enq: nat, deq: nat, cells: seq<Cell>)

  // ---------------------------------------------------------------- indices

  /** The cell index of a position.  It is defined by subtraction, which keeps
      remainders out of the solver; see `AtIsRemainder` and `MaskIsAt`. */
  function At(p: nat, cap: nat): (i: nat)
    requires 0 < cap
    ensures i < cap
  {
    if p < cap then p else At(p - cap, cap)
  }

  lemma {:induction false} AtIsRemainder(p: nat, cap: nat)
    requires 0 < cap
    ensures At(p, cap) == p % cap
    decreases p
  {
    if cap <= p {
      AtIsRemainder(p - cap, cap);
      RemainderOfSum(p - cap, cap);
    }
  }

  lemma RemainderOfSum(p: nat, cap: nat)
    requires 0 < cap
    ensures (p + cap) % cap == p % cap
  {
    var q, r := p / cap, p % cap;
    assert p + cap == (q + 1) * cap + r;
    QuotientIsUnique(p + cap, cap, q + 1, r);
  }

  lemma QuotientIsUnique(n: nat, cap: nat, q: nat, r: nat)
    requires 0 < cap && r < cap && n == q * cap + r
    ensures n % cap == r
  {
    MultipleIsFar(n / cap - q, cap);
    assert (n / cap - q) * cap == r - n % cap;
  }

  lemma MultipleIsFar(d: int, cap: int)
    requires 0 <= cap
    ensures d >= 1 ==> d * cap >= cap
    ensures d <= -1 ==> d * cap <= -cap
  {}

  /** Bitwise `p & m` on naturals. */
  function And(p: nat, m: nat): nat
    decreases m
  {
    if m == 0 then 0 else 2 * And(p / 2, m / 2) + (if p % 2 == 1 && m % 2 == 1 then 1 else 0)
  }

  /** `capacity >= 2 && (capacity & (capacity - 1)) == 0`, the test of esrb_queue_init. */
  predicate Accepted(capacity: nat) {
    2 <= capacity && And(capacity, capacity - 1) == 0
  }

  predicate PowerOfTwo(n: nat)
    decreases n
  {
    n == 1 || (0 < n && n % 2 == 0 && PowerOfTwo(n / 2))
  }

  lemma {:induction false} AndSelf(n: nat)
    ensures And(n, n) == n
    decreases n
  {
    if n != 0 { AndSelf(n / 2); }
  }

  lemma {:induction false} AcceptedIsPowerOfTwo(n: nat)
    requires 0 < n
    ensures And(n, n - 1) == 0 <==> PowerOfTwo(n)
    decreases n
  {
    if n == 1 {
    } else if n % 2 == 0 {
      assert (n - 1) / 2 == n / 2 - 1;
      AcceptedIsPowerOfTwo(n / 2);
    } else {
      assert (n - 1) / 2 == n / 2;
      AndSelf(n / 2);
    }
  }

  lemma {:induction false} AtHalves(p: nat, h: nat)
    requires 0 < h
    ensures At(p, 2 * h) == 2 * At(p / 2, h) + p % 2
    decreases p
  {
    if 2 * h <= p {
      AtHalves(p - 2 * h, h);
      assert (p - 2 * h) / 2 == p / 2 - h;
    }
  }

  lemma {:induction false} MaskIsIndex(p: nat, n: nat)
    requires PowerOfTwo(n)
    ensures And(p, n - 1) == At(p, n)
    decreases n
  {
    if n == 1 {
      AtIsRemainder(p, 1);
    } else {
      var h := n / 2;
      assert n == 2 * h && (n - 1) / 2 == h - 1;
      MaskIsIndex(p / 2, h);
      AtHalves(p, h);
    }
  }

  /** The index computation `position & mask` is `position % capacity`
      for every capacity that esrb_queue_init accepts. */
  lemma MaskIsAt(p: nat, capacity: nat)
    requires Accepted(capacity)
    ensures And(p, capacity - 1) == p % capacity == At(p, capacity)
  {
    AcceptedIsPowerOfTwo(capacity);
    MaskIsIndex(p, capacity);
    AtIsRemainder(p, capacity);
  }

  /** Positions in a window of one capacity have distinct cells. */
  lemma {:induction false} AtUnique(a: nat, b: nat, cap: nat)
    requires 0 < cap && a <= b < a + cap && At(a, cap) == At(b, cap)
    ensures a == b
    decreases a
  {
    if cap <= a { AtUnique(a - cap, b - cap, cap); }
  }

  /** In a window of two capacities, positions sharing a cell are one lap apart. */
  lemma AtLap(a: nat, b: nat, cap: nat)
    requires 0 < cap && a <= b < a + 2 * cap && At(a, cap) == At(b, cap)
    ensures a == b || a + cap == b
  {
    if b < a + cap { AtUnique(a, b, cap); } else { AtUnique(a, b - cap, cap); }
  }

  // -------------------------------------------------------------- operations

  /** Every sequence number starts at its index: esrb_queue_init. */
  function Start(cap: nat): Ring {
    Ring(cap, 0, 0, seq(cap, (i: nat) => Cell(i, i, Free)))
  }

  /** The successful CAS on the enqueue position. */
  function Claim(r: Ring): Ring
    requires 0 < r.cap == |r.cells|
  {
    var i := At(r.enq, r.cap);
    r.(enq := r.enq + 1, cells := r.cells[i := r.cells[i].(phase := Claimed)])
  }

  /** The store that makes a claimed cell visible to consumers. */
  function Publish(r: Ring, i: nat, sequence: nat): Ring
    requires i < |r.cells|
  {
    r.(cells := r.cells[i := r.cells[i].(sequence := sequence, phase := Published)])
  }

  /** The successful CAS (or single-consumer store) on the dequeue position. */
  function Take(r: Ring): Ring
    requires 0 < r.cap == |r.cells|
  {
    var i := At(r.deq, r.cap);
    r.(deq := r.deq + 1, cells := r.cells[i := r.cells[i].(phase := Held)])
  }

  /** The store that hands a cell back to producers. */
  function Return(r: Ring, i: nat, sequence: nat): Ring
    requires i < |r.cells|
  {
    r.(cells := r.cells[i := Cell(sequence, r.cells[i].cur + r.cap, Free)])
  }

  /** What a producer sees before it tries to claim the current position. */
  predicate Claimable(r: Ring) {
    0 < r.cap == |r.cells| && r.cells[At(r.enq, r.cap)].sequence == r.enq
  }

  /** What a consumer sees before it tries to take the current position. */
  predicate Takeable(r: Ring) {
    0 < r.cap == |r.cells| && r.cells[At(r.deq, r.cap)].sequence == r.deq + 1
  }

  // --------------------------------------------------------------- invariant

  ghost predicate CellOk(r: Ring, i: nat)
    requires 0 < r.cap && i < |r.cells|
  {
    var c := r.cells[i];
    && At(c.cur, r.cap) == i
    && r.enq <= c.cur + r.cap && c.cur < r.enq + r.cap
    && (c.phase == Free <==> r.enq <= c.cur)
    && (c.phase == Claimed || c.phase == Published ==> r.deq <= c.cur)
    && (c.phase == Held ==> c.cur < r.deq)
    && c.sequence == (if c.phase == Free || c.phase == Claimed then c.cur else c.cur + 1)
  }

  /** Position p's cell stands for p. */
  ghost predicate Stands(r: Ring, p: nat)
    requires 0 < r.cap == |r.cells|
  {
    r.cells[At(p, r.cap)].cur == p
  }

  ghost predicate Inv(r: Ring) {
    && 2 <= r.cap == |r.cells|
    && r.deq <= r.enq <= r.deq + r.cap
    && (forall i :: 0 <= i < r.cap ==> CellOk(r, i))
    && (forall p :: r.deq <= p < r.enq ==> Stands(r, p))
  }

  lemma StartInv(cap: nat)
    requires 2 <= cap
    ensures Inv(Start(cap))
  {}

  lemma FullMeansNotFree(r: Ring)
    requires Inv(r) && r.enq == r.deq + r.cap
    ensures r.cells[At(r.enq, r.cap)].cur == r.deq
  {
    assert Stands(r, r.deq);
  }

  lemma ClaimKeeps(r: Ring)
    requires Inv(r) && Claimable(r)
    ensures r.cells[At(r.enq, r.cap)] == Cell(r.enq, r.enq, Free)
    ensures Inv(Claim(r))
    ensures Takeable(r) ==> Takeable(Claim(r))
  {
    var i, r' := At(r.enq, r.cap), Claim(r);
    var c := r.cells[i];
    assert CellOk(r, i);
    if c.cur < r.enq {
      AtLap(c.cur, r.enq, r.cap);
      assert false;
    }
    AtUnique(r.enq, c.cur, r.cap);
    assert r.enq < r.deq + r.cap by {
      if r.enq == r.deq + r.cap { FullMeansNotFree(r); }
    }
    forall j | 0 <= j < r.cap ensures CellOk(r', j) {
      assert CellOk(r, j);
    }
    forall p | r'.deq <= p < r'.enq ensures Stands(r', p) {
      if p < r.enq { assert Stands(r, p); }
    }
  }

  lemma PublishKeeps(r: Ring, i: nat)
    requires Inv(r) && i < r.cap && r.cells[i].phase == Claimed
    ensures Inv(Publish(r, i, r.cells[i].cur + 1))
    ensures Claimable(r) ==> Claimable(Publish(r, i, r.cells[i].cur + 1))
    ensures Takeable(r) ==> Takeable(Publish(r, i, r.cells[i].cur + 1))
  {
    EnqueueRead(r, r.enq);
    DequeueRead(r, r.deq);
    var r' := Publish(r, i, r.cells[i].cur + 1);
    forall j | 0 <= j < r.cap ensures CellOk(r', j) { assert CellOk(r, j); }
    forall p | r'.deq <= p < r'.enq ensures Stands(r', p) { assert Stands(r, p); }
  }

  lemma TakeKeeps(r: Ring)
    requires Inv(r) && Takeable(r)
    ensures r.deq < r.enq && r.cells[At(r.deq, r.cap)] == Cell(r.deq + 1, r.deq, Published)
    ensures Inv(Take(r))
    ensures Claimable(r) ==> Claimable(Take(r))
  {
    DequeueRead(r, r.deq);
    var i, r' := At(r.deq, r.cap), Take(r);
    assert CellOk(r, i);
    assert Stands(r, r.deq);
    forall j | 0 <= j < r.cap ensures CellOk(r', j) {
      assert CellOk(r, j);
    }
    forall p | r'.deq <= p < r'.enq ensures Stands(r', p) { assert Stands(r, p); }
  }

  lemma ReturnKeeps(r: Ring, i: nat)
    requires Inv(r) && i < r.cap && r.cells[i].phase == Held
    ensures Inv(Return(r, i, r.cells[i].cur + r.cap))
    ensures Claimable(r) ==> Claimable(Return(r, i, r.cells[i].cur + r.cap))
    ensures Takeable(r) ==> Takeable(Return(r, i, r.cells[i].cur + r.cap))
  {
    EnqueueRead(r, r.enq);
    DequeueRead(r, r.deq);
    var r' := Return(r, i, r.cells[i].cur + r.cap);
    assert CellOk(r, i);
    forall j | 0 <= j < r.cap ensures CellOk(r', j) { assert CellOk(r, j); }
    forall p | r'.deq <= p < r'.enq ensures Stands(r', p) {
      assert Stands(r, p);
    }
  }

  // ------------------------------------------------ what a sequence read tells

  /** What a producer holding a possibly stale position learns from the
      sequence number.  A smaller sequence means that the position is not
      stale and that its cell still belongs to the previous lap: the ring was
      full at that moment.  A stale position can only see an equal sequence
      (and then loses the CAS) or a larger one: it retries. */
  lemma EnqueueRead(r: Ring, p: nat)
    requires Inv(r) && p <= r.enq
    ensures var c := r.cells[At(p, r.cap)];
      && (c.sequence < p <==> p == r.enq && c.phase != Free)
      && (c.sequence < p ==> c.cur + r.cap == p)
      && (p == r.enq ==> (c.sequence == p <==> c.phase == Free) && (c.phase == Free ==> c.cur == p))
  {
    var i := At(p, r.cap);
    var c := r.cells[i];
    assert CellOk(r, i);
    if c.cur < p {
      if p < c.cur + 2 * r.cap { AtLap(c.cur, p, r.cap); }
    } else if c.cur < p + 2 * r.cap {
      AtLap(p, c.cur, r.cap);
    }
  }

  /** The same for a consumer: a smaller sequence means that the position is
      the current one and is still unpublished, whether claimed or not. */
  lemma DequeueRead(r: Ring, p: nat)
    requires Inv(r) && p <= r.deq
    ensures var c := r.cells[At(p, r.cap)];
      && (c.sequence < p + 1 <==> p == r.deq && !(c.cur == p && c.phase == Published))
      && (p == r.deq ==> (c.sequence == p + 1 <==> c.cur == p && c.phase == Published) && (c.sequence == p + 1 ==> p < r.enq))
  {
    var i := At(p, r.cap);
    var c := r.cells[i];
    assert CellOk(r, i);
    if p < r.enq && p == r.deq { assert Stands(r, p); }
    if c.cur < p {
      if p < c.cur + 2 * r.cap { AtLap(c.cur, p, r.cap); }
    } else if c.cur < p + 2 * r.cap {
      AtLap(p, c.cur, r.cap);
    }
  }

  /** The phase and the position of a cell, recovered from its sequence number. */
  function Decode(sequence: nat, i: nat, enq: nat, deq: nat, cap: nat): (Phase, int)
    requires 0 < cap
  {
    if At(sequence, cap) == i
    then (if enq <= sequence then Free else Claimed, sequence)
    else (if deq < sequence then Published else Held, sequence - 1)
  }

  /** The four phases are encoded in the sequence number against the two
      positions; this needs a capacity of at least two. */
  lemma PhaseDecoded(r: Ring, i: nat)
    requires Inv(r) && i < r.cap
    ensures Decode(r.cells[i].sequence, i, r.enq, r.deq, r.cap) == (r.cells[i].phase, r.cells[i].cur)
  {
    var c := r.cells[i];
    assert CellOk(r, i);
    if c.phase == Published || c.phase == Held {
      if At(c.cur + 1, r.cap) == i { AtUnique(c.cur, c.cur + 1, r.cap); }
    }
  }

  /** The ring of one cell after n messages have been claimed, published, taken and returned. */
  function Rounds(n: nat): (r: Ring)
    ensures r.cap == 1 == |r.cells|
  {
    if n == 0 then Start(1) else Return(Take(Publish(Claim(Rounds(n - 1)), 0, n)), 0, n)
  }

  lemma OneRound(n: nat)
    ensures var r := Publish(Claim(Ring(1, n, n, [Cell(n, n, Free)])), 0, n + 1);
      Return(Take(r), 0, n + 1) == Ring(1, n + 1, n + 1, [Cell(n + 1, n + 1, Free)])
  {
    AtIsRemainder(n, 1);
  }

  lemma {:induction false} AfterRounds(n: nat)
    ensures Rounds(n) == Ring(1, n, n, [Cell(n, n, Free)])
  {
    hide Claim, Publish, Take, Return;
    if n == 0 {
      assert Start(1).cells == [Cell(0, 0, Free)];
    } else {
      AfterRounds(n - 1);
      OneRound(n - 1);
    }
  }

  /** With capacity one the encoding fails, whatever has gone before: once the
      only cell is published, a producer sees it as free and overwrites the
      undelivered message, for the cell reads exactly as it does when its message
      has been delivered and the cell returned.  esrb_queue_init refuses it. */
  lemma CapacityOneIsAmbiguous(n: nat)
    ensures !Accepted(1)
    ensures var published := Publish(Claim(Rounds(n)), 0, n + 1);
      && published.cells[0].phase == Published && published.deq == n < published.enq
      && Claimable(published) && Claim(published).cells[0].phase == Claimed
      && published.cells[0].sequence == Rounds(n + 1).cells[0].sequence && published.enq == Rounds(n + 1).enq
      && Rounds(n + 1).cells[0].phase == Free
  {
    AfterRounds(n);
    AfterRounds(n + 1);
    AtIsRemainder(n, 1);
    AtIsRemainder(n + 1, 1);
  }
}
