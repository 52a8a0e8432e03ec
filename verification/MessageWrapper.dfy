/** The Ruby wrapper around a dequeued slot (message.c), as an object.

    Its operations run under the GVL, while other threads go on: they move the ring,
    read the slot and may win its answer.  `responses` and `releases` count the
    calls of esrb_send_response and es_release_message that it has caused. */
module MessageWrapper {
  import opened Rings
  import opened Slots
  import opened SlotQueue
  import Protocol

  /** The calls of a wrapper's methods that can release it. */
  datatype Call = Retain | ReleaseNow | AutoRelease | Finalise

  /** What a call meets: a closed client, another actor that answers between the
      closed check and the compare-and-swap, so many moves on the ring, and the
      reader counts that its two spins see. */
  datatype World = World(closed: bool, beaten: bool, budget: nat, first: Loads, second: Loads)

  /** Whether a call releases a valid wrapper. */
  predicate Releases(call: Call, held: bool) {
    call == ReleaseNow || call == Finalise || (call == AutoRelease && !held)
  }

  /** Whether retain! is among the first n calls, or the wrapper was held before. */
  predicate HeldAfter(calls: seq<Call>, held: bool, n: nat)
    requires n <= |calls|
  {
    held || Retain in calls[..n]
  }

  /** Whether one of the calls releases a valid wrapper. */
  predicate Ends(calls: seq<Call>, held: bool) {
    exists i :: 0 <= i < |calls| && Releases(calls[i], HeldAfter(calls, held, i))
  }

  lemma EndsStep(calls: seq<Call>, held: bool, n: nat)
    requires n < |calls|
    ensures HeldAfter(calls, held, n + 1) == (HeldAfter(calls, held, n) || calls[n] == Retain)
    ensures Ends(calls[..n + 1], held) == (Ends(calls[..n], held) || Releases(calls[n], HeldAfter(calls, held, n)))
  {
    var a, b := calls[..n], calls[..n + 1];
    assert b == a + [calls[n]];
    forall i | 0 <= i <= n ensures HeldAfter(b, held, i) == HeldAfter(calls, held, i) && b[..i] == calls[..i] {}
    forall i | 0 <= i < n ensures HeldAfter(a, held, i) == HeldAfter(calls, held, i) && a[i] == calls[i] == b[i] {
      assert a[..i] == calls[..i];
    }
    if Ends(b, held) {
      var i :| 0 <= i < |b| && Releases(b[i], HeldAfter(b, held, i));
      assert i < n ==> Releases(a[i], HeldAfter(a, held, i));
    }
    if Ends(a, held) {
      var i :| 0 <= i < |a| && Releases(a[i], HeldAfter(a, held, i));
      assert Releases(b[i], HeldAfter(b, held, i));
    }
    if Releases(calls[n], HeldAfter(calls, held, n)) {
      assert Releases(b[n], HeldAfter(b, held, n));
    }
  }

  /** Under retain!, nothing but an explicit release or the finaliser ends a wrapper. */
  lemma HeldOutlivesAutoRelease(calls: seq<Call>)
    ensures Ends(calls, true) <==> ReleaseNow in calls || Finalise in calls
  {
    if Ends(calls, true) {
      var i :| 0 <= i < |calls| && Releases(calls[i], HeldAfter(calls, true, i));
      assert calls[i] in calls;
    }
    if ReleaseNow in calls || Finalise in calls {
      var i :| 0 <= i < |calls| && (calls[i] == ReleaseNow || calls[i] == Finalise);
      assert Releases(calls[i], HeldAfter(calls, true, i));
    }
  }

  class Message {
    const queue: Queue
    const slot: Slot
    var valid: bool
    var held: bool
    ghost var responses: nat
    ghost var releases: nat
    // When it was released, the slot was still held and not occupied, and the spin's last load saw no reader.
    ghost var safely: bool

    /** A valid wrapper holds its slot. */
    ghost predicate Valid()
      reads this, queue, queue.pool
    {
      && queue.Tied() && queue.depthMax <= |queue.slots|
      && slot.number < |queue.slots| && queue.slots[slot.number] == slot
      && (valid ==> queue.ring.cells[slot.number].phase == Held)
    }

    /** esrb_message_wrap, on a slot that has just been dequeued. */
    constructor (queue: Queue, slot: Slot)
      requires queue.Tied() && queue.depthMax <= |queue.slots|
      requires slot.number < |queue.slots| && queue.slots[slot.number] == slot
      requires queue.ring.cells[slot.number].phase == Held
      ensures Valid() && valid && !held && responses == 0 && releases == 0 && this.queue == queue && this.slot == slot
    {
      this.queue, this.slot := queue, slot;
      valid, held := true, false;
      responses, releases, safely := 0, 0, true;
    }

    /** esrb_respond_slot: the closed check, then the compare-and-swap on the answer
        word, with room for another actor to win it in between. */
    method Respond(world: World) returns (sent: bool)
      requires Valid()
      modifies `responses, slot`answer
      ensures Valid() && sent == (!world.closed && !world.beaten && old(slot.answer) == Protocol.Pending)
      ensures slot.answer == if !world.closed && old(slot.answer) == Protocol.Pending then Protocol.Answered else old(slot.answer)
      ensures responses == old(responses) + if sent then 1 else 0
    {
      if world.closed {
        return false;
      }
      if world.beaten && slot.answer == Protocol.Pending {
        slot.answer := Protocol.Answered;
      }
      sent := slot.answer == Protocol.Pending;
      if sent {
        slot.answer := Protocol.Answered;
        responses := responses + 1;
      }
    }

    /** message_release: respond, disarm, release the message, return the slot. */
    method Release(world: World)
      requires Valid()
      modifies `valid, `responses, `releases, `safely, queue, queue.pool
      ensures Valid() && !valid
      ensures releases == old(releases) + if old(valid) then 1 else 0
      ensures responses == old(responses)
        + if old(valid) && !world.closed && !world.beaten && old(slot.answer) == Protocol.Pending then 1 else 0
      ensures old(valid) ==>
        && safely && !slot.occupied && (world.closed || slot.answer != Protocol.Pending)
        && queue.ring.cells[slot.number].phase == Free
      ensures !old(valid) ==> unchanged(queue, queue.pool) && safely == old(safely)
    {
      if !valid {
        return;
      }
      var _ := Respond(world);
      var n := queue.Disarm(slot, world.first);
      safely := !slot.occupied && world.first(n) == 0 && queue.ring.cells[slot.number].phase == Held;
      releases := releases + 1;
      ghost var _ := queue.Release(slot, world.budget, world.second);
      valid := false;
    }

    /** retain!, which raises on a released message. */
    method RetainBang() returns (ok: bool)
      requires Valid()
      modifies `held
      ensures Valid() && ok == valid && held == (old(held) || valid)
    {
      ok := valid;
      if valid {
        held := true;
      }
    }

    /** Auto-release after the handler. */
    method AutoReleaseAfter(world: World)
      requires Valid()
      modifies `valid, `responses, `releases, `safely, queue, queue.pool
      ensures Valid() && valid == (old(valid) && held)
      ensures releases == old(releases) + if old(valid) && !held then 1 else 0
      ensures old(valid) && !held ==> safely
      ensures !(old(valid) && !held) ==> safely == old(safely) && responses == old(responses) && unchanged(queue, queue.pool)
    {
      if !held {
        Release(world);
      }
    }

    /** The finaliser: a message that is still held counts as leaked. */
    method Finaliser(world: World) returns (leaked: bool)
      requires Valid()
      modifies `valid, `responses, `releases, `safely, queue, queue.pool
      ensures Valid() && !valid && leaked == (old(valid) && held)
      ensures releases == old(releases) + if old(valid) then 1 else 0
      ensures if old(valid) then safely else safely == old(safely)
    {
      leaked := valid && held;
      Release(world);
    }

    /** Any sequence of calls, whatever each of them meets, releases the message at
        most once, and does so exactly if one of the calls is meant to: under
        retain!, only release! and the finaliser are. */
    method Perform(calls: seq<Call>, world: nat -> World)
      requires Valid()
      modifies this, queue, queue.pool
      ensures Valid() && valid == (old(valid) && !Ends(calls, old(held)))
      ensures releases == old(releases) + if old(valid) && Ends(calls, old(held)) then 1 else 0
      ensures old(valid && held) ==> (valid <==> ReleaseNow !in calls && Finalise !in calls)
      ensures old(safely) ==> safely
    {
      var i := 0;
      while i < |calls|
        invariant Valid() && i <= |calls| && (old(safely) ==> safely)
        invariant valid == (old(valid) && !Ends(calls[..i], old(held))) && (valid ==> held == HeldAfter(calls, old(held), i))
        invariant releases == old(releases) + if old(valid) && Ends(calls[..i], old(held)) then 1 else 0
      {
        match calls[i] {
          case Retain => var _ := RetainBang();
          case ReleaseNow => Release(world(i));
          case AutoRelease => AutoReleaseAfter(world(i));
          case Finalise => var _ := Finaliser(world(i));
        }
        EndsStep(calls, old(held), i);
        i := i + 1;
      }
      assert calls[..i] == calls;
      HeldOutlivesAutoRelease(calls);
    }
  }
}
