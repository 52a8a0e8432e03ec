/** The watchdog's heap of deadlines (watchdog.c), over an array of entries and
    slot objects that hold the index of their own entry.

    Every operation is proved against the map of slots to entries that the heap
    stands for, `content`, which is the heap of the state machine in Protocol. */
module DeadlineHeap {
  import opened Words
  import opened Slots
  import Protocol

  /** A cleared entry has no slot. */
  datatype HeapEntry = HeapEntry(slot: Slot?, position: nat, fireAt: nat)

  /** The map from slots that the heap stands for. */
  type Content = map<nat, Protocol.Entry>

  function View(e: HeapEntry): Protocol.Entry
    requires e.slot != null
  {
    Protocol.Entry(e.slot.number, e.position, e.fireAt)
  }

  // ------------------------------------------------------------------- order

  function Parent(i: nat): (p: nat)
    requires 0 < i
    ensures p < i
  {
    (i - 1) / 2
  }

  /** Entry i is not due before its parent. */
  predicate Below(es: seq<HeapEntry>, i: nat)
    requires i < |es|
  {
    i == 0 || es[Parent(i)].fireAt <= es[i].fireAt
  }

  ghost predicate Ordered(es: seq<HeapEntry>) {
    forall i :: 0 <= i < |es| ==> Below(es, i)
  }

  /** All is in order except that entry k may be too early for its parent or
      too late for its children; taking it out would leave order behind. */
  ghost predicate Loose(es: seq<HeapEntry>, k: nat) {
    && k < |es|
    && (forall i :: 0 <= i < |es| && i != k && (i == 0 || Parent(i) != k) ==> Below(es, i))
    && (forall i :: 0 < i < |es| && Parent(i) == k && k > 0 ==> es[Parent(k)].fireAt <= es[i].fireAt)
  }

  function Swap(es: seq<HeapEntry>, a: nat, b: nat): (ts: seq<HeapEntry>)
    requires a < |es| && b < |es|
    ensures |ts| == |es|
  {
    es[a := es[b]][b := es[a]]
  }

  lemma SwapMoves(es: seq<HeapEntry>, a: nat, b: nat)
    requires a < |es| && b < |es|
    ensures |Swap(es, a, b)| == |es| && Swap(es, a, b)[a] == es[b] && Swap(es, a, b)[b] == es[a]
  {}

  /** The root of an ordered heap is due first. */
  lemma {:induction false} RootIsFirst(es: seq<HeapEntry>, i: nat)
    requires Ordered(es) && i < |es|
    ensures es[0].fireAt <= es[i].fireAt
    decreases i
  {
    assert Below(es, i);
    if i > 0 { RootIsFirst(es, Parent(i)); }
  }

  /** c is k's earliest child. */
  ghost predicate EarliestChild(es: seq<HeapEntry>, k: nat, c: nat) {
    && 0 < c < |es| && Parent(c) == k
    && forall i :: 0 < i < |es| && Parent(i) == k ==> es[c].fireAt <= es[i].fireAt
  }

  lemma PickChild(es: seq<HeapEntry>, k: nat, c: nat)
    requires var left := k * 2 + 1;
      left < |es| && c == if left + 1 < |es| && es[left + 1].fireAt < es[left].fireAt then left + 1 else left
    ensures EarliestChild(es, k, c) && k < c < |es|
  {}

  lemma UpStep(es: seq<HeapEntry>, k: nat)
    requires Loose(es, k) && 0 < k && es[k].fireAt < es[Parent(k)].fireAt
    ensures Loose(Swap(es, Parent(k), k), Parent(k))
  {
    var p := Parent(k);
    var ts := Swap(es, p, k);
    assert Below(es, p);
    forall i | 0 <= i < |ts| && i != p && (i == 0 || Parent(i) != p) ensures Below(ts, i) {
      if i > 0 && Parent(i) != k { assert Below(es, i); }
    }
    forall i | 0 < i < |ts| && Parent(i) == p && p > 0 ensures ts[Parent(p)].fireAt <= ts[i].fireAt {
      if i != k { assert Below(es, i); }
    }
  }

  lemma DownStep(es: seq<HeapEntry>, k: nat, c: nat)
    requires Loose(es, k) && Below(es, k) && EarliestChild(es, k, c) && es[c].fireAt < es[k].fireAt
    ensures Loose(Swap(es, k, c), c) && Below(Swap(es, k, c), c)
  {
    var ts := Swap(es, k, c);
    forall i | 0 <= i < |ts| && i != c && (i == 0 || Parent(i) != c) ensures Below(ts, i) {
      if i != k && i > 0 && Parent(i) != k { assert Below(es, i); }
    }
    forall i | 0 < i < |ts| && Parent(i) == c ensures ts[Parent(c)].fireAt <= ts[i].fireAt {
      assert Below(es, i);
    }
  }

  lemma DownEnds(es: seq<HeapEntry>, k: nat, c: nat)
    requires Loose(es, k) && Below(es, k)
    requires |es| <= k * 2 + 1 || (EarliestChild(es, k, c) && es[k].fireAt <= es[c].fireAt)
    ensures Ordered(es)
  {}

  /** Entry a goes and the last one takes its place. */
  function Without(es: seq<HeapEntry>, a: nat): seq<HeapEntry>
    requires a < |es|
  {
    var n := |es| - 1;
    if a == n then es[..n] else es[..n][a := es[n]]
  }

  /** Entry a is overwritten, or appended. */
  function With(es: seq<HeapEntry>, a: nat, e: HeapEntry): seq<HeapEntry>
    requires a <= |es|
  {
    if a == |es| then es + [e] else es[a := e]
  }

  /** Taking an entry out, or overwriting it, leaves at most its place out of order. */
  lemma WithoutLoosens(es: seq<HeapEntry>, a: nat)
    requires Ordered(es) && a < |es|
    ensures if a == |es| - 1 then Ordered(Without(es, a)) else Loose(Without(es, a), a)
  {
    var n := |es| - 1;
    if a < n { assert Without(es, a) == With(es, a, es[n])[..n]; }
    WithLoosens(es, a, es[n]);
    forall i | 0 <= i < n && a == n ensures Below(es[..n], i) { assert Below(es, i); }
    forall i | 0 <= i < n && a < n && i != a && (i == 0 || Parent(i) != a) ensures Below(Without(es, a), i) {
      assert Below(With(es, a, es[n]), i);
    }
  }

  lemma WithLoosens(es: seq<HeapEntry>, a: nat, e: HeapEntry)
    requires Ordered(es) && a <= |es|
    ensures Loose(With(es, a, e), a)
  {
    var ts := With(es, a, e);
    forall i | 0 <= i < |ts| && i != a && (i == 0 || Parent(i) != a) ensures Below(ts, i) {
      assert Below(es, i);
    }
    forall i | 0 < i < |ts| && Parent(i) == a && a > 0 ensures ts[Parent(a)].fireAt <= ts[i].fireAt {
      assert Below(es, a) && Below(es, i);
    }
  }

  /** At most n keys are below n. */
  lemma {:induction false} KeysBelow(keys: set<nat>, n: nat)
    requires forall k :: k in keys ==> k < n
    ensures |keys| <= n
    decreases n
  {
    if n == 0 {
      assert keys == {};
    } else {
      KeysBelow(keys - {n - 1}, n - 1);
    }
  }

  // ------------------------------------------------------------------- links

  ghost predicate Owned(slots: seq<Slot>, slot: Slot?) {
    slot != null && slot.number < |slots| && slots[slot.number] == slot
  }

  /** Entry i's slot points back at i, and the content has exactly this entry for it. */
  ghost predicate EntryLinked(slots: seq<Slot>, es: seq<HeapEntry>, indices: seq<nat>,
                              content: Content, i: nat)
    requires |indices| == |slots| && i < |es|
  {
    var e := es[i];
    && Owned(slots, e.slot) && indices[e.slot.number] == i
    && e.slot.number in content && content[e.slot.number] == View(e)
  }

  /** Every key's index leads to its entry. */
  ghost predicate Links(slots: seq<Slot>, es: seq<HeapEntry>, indices: seq<nat>, content: Content) {
    && |indices| == |slots| && |es| == |content|
    && (forall i :: 0 <= i < |es| ==> EntryLinked(slots, es, indices, content, i))
    && (forall k :: k in content ==> k < |slots| && indices[k] < |es| && es[indices[k]].slot == slots[k])
  }

  function Put(indices: seq<nat>, k: nat, i: nat): (js: seq<nat>)
    requires k < |indices|
    ensures |js| == |indices|
  {
    indices[k := i]
  }

  lemma LinkOf(slots: seq<Slot>, es: seq<HeapEntry>, indices: seq<nat>, content: Content, i: nat)
    requires Links(slots, es, indices, content) && i < |es|
    ensures EntryLinked(slots, es, indices, content, i)
  {}

  /** A slot has an entry exactly when the entry at its index is its own,
      whatever a slot without an entry has for an index. */
  lemma HasEntry(slots: seq<Slot>, es: seq<HeapEntry>, indices: seq<nat>, content: Content, slot: Slot)
    requires Links(slots, es, indices, content) && Owned(slots, slot)
    ensures slot.number in content <==> indices[slot.number] < |es| && es[indices[slot.number]].slot == slot
  {
    var i := indices[slot.number];
    if i < |es| { assert EntryLinked(slots, es, indices, content, i); }
  }

  function SwapIndices(es: seq<HeapEntry>, indices: seq<nat>, a: nat, b: nat): seq<nat>
    requires a < |es| && b < |es|
    requires es[a].slot != null && es[a].slot.number < |indices| && es[b].slot != null && es[b].slot.number < |indices|
  {
    Put(Put(indices, es[b].slot.number, a), es[a].slot.number, b)
  }

  lemma SwapLinks(slots: seq<Slot>, es: seq<HeapEntry>, indices: seq<nat>, content: Content, a: nat, b: nat)
    requires Numbered(slots) && Links(slots, es, indices, content) && a < |es| && b < |es|
    requires Owned(slots, es[a].slot) && Owned(slots, es[b].slot)
    ensures Links(slots, Swap(es, a, b), SwapIndices(es, indices, a, b), content)
  {
    var ts, ns := Swap(es, a, b), SwapIndices(es, indices, a, b);
    LinkOf(slots, es, indices, content, a);
    LinkOf(slots, es, indices, content, b);
    forall i | 0 <= i < |ts| ensures EntryLinked(slots, ts, ns, content, i) {
      LinkOf(slots, es, indices, content, i);
    }
  }

  function WithoutIndices(es: seq<HeapEntry>, indices: seq<nat>, a: nat): seq<nat>
    requires a < |es| && es[a].slot != null && es[a].slot.number < |indices|
    requires es[|es| - 1].slot != null && es[|es| - 1].slot.number < |indices|
  {
    var gone := Put(indices, es[a].slot.number, WORD_MAX);
    if a == |es| - 1 then gone else Put(gone, es[|es| - 1].slot.number, a)
  }

  /** The links after entry a has gone and the last entry has taken its place. */
  lemma WithoutLinks(slots: seq<Slot>, es: seq<HeapEntry>, indices: seq<nat>, content: Content, a: nat)
    requires Numbered(slots) && Links(slots, es, indices, content) && a < |es|
    requires Owned(slots, es[a].slot) && Owned(slots, es[|es| - 1].slot)
    ensures Links(slots, Without(es, a), WithoutIndices(es, indices, a), content - {es[a].slot.number})
  {
    var ts, ns, rest := Without(es, a), WithoutIndices(es, indices, a), content - {es[a].slot.number};
    LinkOf(slots, es, indices, content, a);
    LinkOf(slots, es, indices, content, |es| - 1);
    forall i | 0 <= i < |ts| ensures EntryLinked(slots, ts, ns, rest, i) {
      LinkOf(slots, es, indices, content, i);
    }
  }

  /** Where heap_set puts a slot's entry. */
  function Place(es: seq<HeapEntry>, indices: seq<nat>, content: Content, k: nat): nat
    requires k < |indices|
  {
    if k in content then indices[k] else |es|
  }

  lemma WithLinks(slots: seq<Slot>, es: seq<HeapEntry>, indices: seq<nat>, content: Content, e: HeapEntry)
    requires Numbered(slots) && Links(slots, es, indices, content) && Owned(slots, e.slot)
    ensures var k := e.slot.number; var at := Place(es, indices, content, k);
      at <= |es| && Links(slots, With(es, at, e), Put(indices, k, at), content[k := View(e)])
  {
    var k := e.slot.number;
    var at := Place(es, indices, content, k);
    var ts, ns, more := With(es, at, e), Put(indices, k, at), content[k := View(e)];
    forall i | 0 <= i < |ts| ensures EntryLinked(slots, ts, ns, more, i) {
      if i < |es| { LinkOf(slots, es, indices, content, i); }
    }
  }

  // -------------------------------------------------------------------- passes

  /** What is left of the content once the given entries have been taken. */
  function After(content: Content, taken: seq<Protocol.Entry>): (rest: Content)
    ensures forall k :: k in rest ==> k in content && rest[k] == content[k]
  {
    if taken == [] then content else After(content, taken[..|taken| - 1]) - {taken[|taken| - 1].slot}
  }

  /** Each entry taken is a root of what the earlier ones have left. */
  ghost predicate TakenFromRoot(content: Content, taken: seq<Protocol.Entry>) {
    forall i :: 0 <= i < |taken| ==> IsRootEntry(After(content, taken[..i]), taken[i])
  }

  ghost predicate IsRootEntry(content: Content, e: Protocol.Entry) {
    Protocol.IsRoot(content, e.slot) && content[e.slot] == e
  }

  lemma {:induction false} LaterHasLess(content: Content, taken: seq<Protocol.Entry>, i: nat)
    requires i <= |taken|
    ensures forall k :: k in After(content, taken) ==>
      k in After(content, taken[..i]) && After(content, taken)[k] == After(content, taken[..i])[k]
    decreases |taken|
  {
    if i == |taken| {
      assert taken[..i] == taken;
    } else {
      var most := taken[..|taken| - 1];
      LaterHasLess(content, most, i);
      assert most[..i] == taken[..i];
    }
  }

  /** The entries of a pass come out in the order of their fire times. */
  lemma PassIsInOrder(content: Content, taken: seq<Protocol.Entry>, i: nat, j: nat)
    requires TakenFromRoot(content, taken) && i < j < |taken|
    ensures taken[i].fireAt <= taken[j].fireAt
  {
    assert IsRootEntry(After(content, taken[..i]), taken[i]) && IsRootEntry(After(content, taken[..j]), taken[j]);
    LaterHasLess(content, taken[..j], i);
    assert taken[..j][..i] == taken[..i];
  }

  ghost predicate NothingDue(content: Content, now: nat) {
    forall k :: k in content ==> content[k].fireAt > now
  }

  /** Every entry was due at the clock reading before it was taken. */
  ghost predicate AllDue(due: seq<Protocol.Entry>, clock: nat -> nat) {
    forall i :: 0 <= i < |due| ==> due[i].fireAt <= clock(i)
  }

  lemma OneMoreDue(due: seq<Protocol.Entry>, e: Protocol.Entry, clock: nat -> nat)
    requires AllDue(due, clock) && e.fireAt <= clock(|due|)
    ensures AllDue(due + [e], clock)
  {}

  lemma NothingTaken(content: Content)
    ensures TakenFromRoot(content, []) && After(content, []) == content
  {}

  lemma TakeOneMore(content: Content, taken: seq<Protocol.Entry>, e: Protocol.Entry)
    requires TakenFromRoot(content, taken) && IsRootEntry(After(content, taken), e)
    ensures TakenFromRoot(content, taken + [e]) && After(content, taken + [e]) == After(content, taken) - {e.slot}
  {
    var more := taken + [e];
    assert more[..|taken|] == taken;
    forall i | 0 <= i < |more| ensures IsRootEntry(After(content, more[..i]), more[i]) {
      if i < |taken| { assert more[..i] == taken[..i]; }
    }
  }

  // -------------------------------------------------------------------- heap

  class Heap {
    const entries: array<HeapEntry>
    var size: nat
    ghost const slots: seq<Slot>
    ghost const pool: set<Slot>

    // The entries in use, the slots' indices, and the map that both stand for
    ghost var es: seq<HeapEntry>
    ghost var indices: seq<nat>
    ghost var content: Content

    ghost predicate Tied()
      reads `size, `es, `indices, entries, pool
    {
      && |es| == size <= entries.Length && Numbered(slots) && |indices| == |slots|
      && (forall i :: 0 <= i < size ==> entries[i] == es[i])
      && (forall k :: 0 <= k < |slots| ==> slots[k] in pool && slots[k].watchdogIndex == indices[k])
    }

    ghost predicate Linked()
      reads this, entries, pool
    {
      size == |es| && Tied() && Links(slots, es, indices, content)
    }

    ghost predicate Valid()
      reads this, entries, pool
    {
      Linked() && Ordered(es)
    }

    lemma Relink()
      requires size == |es| && Tied() && Links(slots, es, indices, content)
      ensures Linked() && (Ordered(es) ==> Valid())
    {}

    constructor (capacity: nat, ghost slots: seq<Slot>)
      requires Numbered(slots)
      ensures Valid() && fresh(entries) && entries.Length == capacity && this.slots == slots && content == map[]
    {
      entries := new HeapEntry[capacity](_ => HeapEntry(null, 0, 0));
      size := 0;
      this.slots := slots;
      pool := set s | s in slots;
      es := [];
      indices := seq(|slots|, (k: int) requires 0 <= k < |slots| reads slots => slots[k].watchdogIndex);
      content := map[];
    }

    // Loads and stores of single words, and of an entry at the end

    function Load(i: nat): (e: HeapEntry)
      requires Tied() && i < |es|
      reads `size, `es, `indices, entries, pool
      ensures e == es[i]
    {
      entries[i]
    }

    method Store(i: nat, e: HeapEntry)
      requires Tied() && i < |es|
      modifies `es, entries
      ensures Tied() && es == old(es)[i := e]
    {
      entries[i] := e;
      es := es[i := e];
    }

    /** Appends an entry. */
    method Push(e: HeapEntry)
      requires Tied() && size < entries.Length
      modifies `size, `es, entries
      ensures Tied() && es == old(es) + [e]
    {
      entries[size] := e;
      size := size + 1;
      es := es + [e];
    }

    /** Drops the last entry. */
    method Pop() returns (e: HeapEntry)
      requires Tied() && 0 < |es|
      modifies `size, `es
      ensures Tied() && size == |es| && es == old(es)[..|old(es)| - 1] && e == old(es)[|old(es)| - 1]
    {
      size := size - 1;
      e := entries[size];
      es := es[..size];
    }

    function LoadIndex(slot: Slot): (i: nat)
      requires Tied() && Owned(slots, slot)
      reads `size, `es, `indices, entries, pool
      ensures |indices| == |slots| && i == indices[slot.number]
    {
      slot.watchdogIndex
    }

    method StoreIndex(slot: Slot, i: nat)
      requires Tied() && Owned(slots, slot)
      modifies `indices, pool`watchdogIndex
      ensures Tied() && |old(indices)| == |slots| && indices == Put(old(indices), slot.number, i)
    {
      slot.watchdogIndex := i;
      indices := Put(indices, slot.number, i);
    }

    /** The stores of heap_swap. */
    method SwapWords(left: nat, right: nat)
      requires Tied() && left < |es| && right < |es| && |indices| == |slots|
      requires Owned(slots, es[left].slot) && Owned(slots, es[right].slot)
      modifies `es, `indices, entries, pool`watchdogIndex
      ensures Tied() && es == Swap(old(es), left, right) && indices == SwapIndices(old(es), old(indices), left, right)
    {
      hide Tied;
      var temporary := Load(left);
      var other := Load(right);
      Store(left, other);
      Store(right, temporary);
      StoreIndex(other.slot, left);
      StoreIndex(temporary.slot, right);
    }

    /** heap_swap: the content stays as it is. */
    method HeapSwap(left: nat, right: nat)
      requires Linked() && left < |es| && right < |es|
      modifies `es, `indices, entries, pool`watchdogIndex
      ensures Linked() && left < |old(es)| && right < |old(es)| && es == Swap(old(es), left, right)
    {
      LinkOf(slots, es, indices, content, left);
      LinkOf(slots, es, indices, content, right);
      SwapLinks(slots, es, indices, content, left, right);
      SwapMoves(es, left, right);
      hide Tied, Links, Swap, SwapIndices;
      SwapWords(left, right);
    }

    /** heap_up.  Afterwards, where the moved entry has come to rest, only its children
        may be out of order. */
    method HeapUp(start: nat) returns (ghost at: nat)
      requires Linked() && start < size && Loose(es, start)
      modifies `es, `indices, entries, pool`watchdogIndex
      ensures Linked() && at < size && Loose(es, at) && Below(es, at)
      ensures start < |old(es)| && es[at] == old(es)[start]
    {
      var index: nat := start;
      hide Tied, Links, Loose, Swap;
      while index > 0
        invariant Linked() && index < size && Loose(es, index)
        invariant es[index] == old(es)[start]
      {
        var parent := (index - 1) / 2;
        if Load(parent).fireAt <= Load(index).fireAt {
          break;
        }
        UpStep(es, index);
        SwapMoves(es, parent, index);
        HeapSwap(parent, index);
        index := parent;
      }
      at := index;
    }

    /** heap_down: restores the order. */
    method HeapDown(start: nat)
      requires Linked() && start < size && Loose(es, start) && Below(es, start)
      modifies `es, `indices, entries, pool`watchdogIndex
      ensures Valid()
    {
      var index: nat := start;
      hide Tied, Links, Loose, Ordered, Below, EarliestChild, Swap;
      while true
        invariant Linked() && index < size
        invariant Loose(es, index) && Below(es, index)
        decreases size - index
      {
        var left := index * 2 + 1;
        if left >= size {
          DownEnds(es, index, left);
          return;
        }
        var right := left + 1;
        var smallest: nat := if right < size && Load(right).fireAt < Load(left).fireAt then right else left;
        PickChild(es, index, smallest);
        if Load(index).fireAt <= Load(smallest).fireAt {
          DownEnds(es, index, smallest);
          return;
        }
        DownStep(es, index, smallest);
        HeapSwap(index, smallest);
        index := smallest;
      }
    }

    /** heap_up, then heap_down from the moved slot's new index: how both
        heap_remove and heap_set end. */
    method Settle(index: nat)
      requires Linked() && index < size && Loose(es, index)
      modifies `es, `indices, entries, pool`watchdogIndex
      ensures Valid()
    {
      LinkOf(slots, es, indices, content, index);
      hide Tied, Links, Loose, Ordered, Below;
      var moved := Load(index);
      ghost var at := HeapUp(index);
      LinkOf(slots, es, indices, content, at);
      var now := LoadIndex(moved.slot);
      HeapDown(now);
    }

    /** The first part of heap_remove: the last entry takes the place of entry `index`. */
    method Detach(index: nat)
      requires Tied() && index < |es| && |indices| == |slots|
      requires Owned(slots, es[index].slot) && Owned(slots, es[|es| - 1].slot)
      modifies `size, `es, `indices, entries, pool`watchdogIndex
      ensures Tied() && size == |es| && es == Without(old(es), index)
      ensures indices == WithoutIndices(old(es), old(indices), index)
    {
      hide Tied;
      var removed := Load(index);
      StoreIndex(removed.slot, WORD_MAX);
      var last := Pop();
      if index == size {
        return;
      }
      Store(index, last);
      StoreIndex(last.slot, index);
    }

    /** The same, with the content. */
    method Unlink(index: nat)
      requires Linked() && index < size
      modifies `size, `es, `indices, `content, entries, pool`watchdogIndex
      ensures Linked() && index < |old(es)| && es == Without(old(es), index)
      ensures old(es)[index].slot != null && content == old(content) - {old(es)[index].slot.number}
    {
      LinkOf(slots, es, indices, content, index);
      LinkOf(slots, es, indices, content, |es| - 1);
      WithoutLinks(slots, es, indices, content, index);
      ghost var k := es[index].slot.number;
      assert Tied() && size == |es|;
      hide *;
      Detach(index);
      content := content - {k};
      Relink();
    }

    /** heap_remove: deletes exactly one key. */
    method HeapRemove(index: nat)
      requires Valid() && index < size
      modifies `size, `es, `indices, `content, entries, pool`watchdogIndex
      ensures Valid() && size == old(size) - 1 && index < |old(es)|
      ensures old(es)[index].slot != null && content == old(content) - {old(es)[index].slot.number}
    {
      WithoutLoosens(es, index);
      hide Tied, Links, Ordered, Loose;
      Unlink(index);
      if index == size {
        return;
      }
      Settle(index);
    }

    /** The first part of heap_set: the entry at the slot's index, if it is the
        slot's own, is overwritten; otherwise a new one is appended, if there is room. */
    method Attach(request: HeapEntry) returns (stored: bool, index: nat)
      requires Tied() && Owned(slots, request.slot) && |indices| == |slots|
      modifies `size, `es, `indices, entries, pool`watchdogIndex
      ensures Tied() && |old(indices)| == |slots|
      ensures var k := old(indices)[request.slot.number];
        && index == (if k < |old(es)| && old(es)[k].slot == request.slot then k else |old(es)|)
        && stored == (index < |old(es)| || |old(es)| < entries.Length)
      ensures stored ==> es == With(old(es), index, request) && indices == Put(old(indices), request.slot.number, index)
      ensures !stored ==> es == old(es) && indices == old(indices)
    {
      assert size == |es|;
      hide Tied;
      index := LoadIndex(request.slot);
      if index >= size || Load(index).slot != request.slot {
        index := size;
        if size >= entries.Length {
          return false, index;
        }
        Push(request);
        StoreIndex(request.slot, index);
      } else {
        Store(index, request);
        assert Put(indices, request.slot.number, index) == indices;
      }
      stored := true;
    }

    /** The same, with the content. */
    method Insert(request: HeapEntry) returns (stored: bool, index: nat)
      requires Linked() && Owned(slots, request.slot)
      modifies `size, `es, `indices, `content, entries, pool`watchdogIndex
      ensures Linked() && stored == (request.slot.number in old(content) || |old(es)| < entries.Length)
      ensures stored ==> index <= |old(es)| && es == With(old(es), index, request)
      ensures stored ==> content == old(content)[request.slot.number := View(request)]
      ensures !stored ==> es == old(es) && content == old(content)
    {
      HasEntry(slots, es, indices, content, request.slot);
      WithLinks(slots, es, indices, content, request);
      hide Tied, Links, With, Put;
      stored, index := Attach(request);
      if stored {
        content := content[request.slot.number := View(request)];
      }
    }

    /** heap_set: inserts or overwrites the slot's entry; a new entry is
        ignored if the array is full. */
    method HeapSet(request: HeapEntry)
      requires Valid() && Owned(slots, request.slot)
      modifies `size, `es, `indices, `content, entries, pool`watchdogIndex
      ensures Valid()
      ensures content ==
        if request.slot.number in old(content) || |old(es)| < entries.Length
        then old(content)[request.slot.number := View(request)] else old(content)
    {
      hide Tied, Links, Ordered, Loose, With;
      var stored, index := Insert(request);
      if stored {
        WithLoosens(old(es), index, request);
        Settle(index);
      }
    }

    /** As heap and queue share one capacity, a new entry always finds room. */
    lemma NewEntryFits(slot: Slot)
      requires Linked() && |slots| <= entries.Length && Owned(slots, slot) && slot.number !in content
      ensures |es| < entries.Length
    {
      KeysBelow(content.Keys + {slot.number}, |slots|);
    }

    lemma RestIsLater(now: nat)
      requires Valid() && (size > 0 ==> es[0].fireAt > now)
      ensures NothingDue(content, now)
    {
      if size > 0 { RootIsLeast(); }
    }

    lemma RootIsLeast()
      requires Valid() && 0 < |es|
      ensures es[0].slot != null && IsRootEntry(content, View(es[0]))
    {
      LinkOf(slots, es, indices, content, 0);
      forall k | k in content ensures es[0].fireAt <= content[k].fireAt {
        LinkOf(slots, es, indices, content, indices[k]);
        RootIsFirst(es, indices[k]);
      }
    }

    /** Takes the root out of the heap. */
    method TakeRoot() returns (e: Protocol.Entry)
      requires Valid() && 0 < size
      modifies `size, `es, `indices, `content, entries, pool`watchdogIndex
      ensures Valid() && size == old(size) - 1
      ensures IsRootEntry(old(content), e) && content == old(content) - {e.slot}
      ensures 0 < |old(es)| && e.fireAt == old(es)[0].fireAt
    {
      RootIsLeast();
      hide Tied, Links, Ordered, IsRootEntry;
      e := View(Load(0));
      HeapRemove(0);
    }

    /** The inner loop of esrb_watchdog_main.  `clock` gives the reading of the
        clock after that many answers, and `due` collects the entries that are
        handed to answer_due. */
    method Pass(clock: nat -> nat) returns (due: seq<Protocol.Entry>, now: nat)
      requires Valid()
      modifies `size, `es, `indices, `content, entries, pool`watchdogIndex
      ensures Valid() && now == clock(|due|)
      ensures content == After(old(content), due) && TakenFromRoot(old(content), due)
      ensures NothingDue(content, now) && AllDue(due, clock)
    {
      NothingTaken(content);
      assert AllDue([], clock);
      hide Tied, Links, Ordered, After, TakenFromRoot, IsRootEntry, NothingDue, AllDue;
      due := [];
      now := clock(0);
      while size > 0 && Load(0).fireAt <= now
        invariant Valid() && now == clock(|due|) && AllDue(due, clock)
        invariant content == After(old(content), due) && TakenFromRoot(old(content), due)
        decreases size
      {
        var entry := TakeRoot();
        TakeOneMore(old(content), due, entry);
        OneMoreDue(due, entry, clock);
        due := due + [entry];
        now := clock(|due|);
      }
      RestIsLater(now);
    }
  }
}
