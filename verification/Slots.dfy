/** esrb_slot_t: the fields that the queue, the heap of deadlines and the message
    wrappers use. */
module Slots {
  import opened Words
  import Protocol

  class Slot {
    const number: nat
    var sequence: nat
    var position: nat
    var occupied: bool
    var answer: Protocol.Answer
    var watchdogIndex: nat

    constructor (number: nat)
      ensures this.number == number && sequence == number && !occupied && watchdogIndex == WORD_MAX
    {
      this.number, sequence, position := number, number, 0;
      occupied, answer, watchdogIndex := false, Protocol.NotAuth, WORD_MAX;
    }
  }

  /** Slots are named by their place in the queue's array. */
  ghost predicate Numbered(slots: seq<Slot>) {
    forall k :: 0 <= k < |slots| ==> slots[k].number == k
  }
}
