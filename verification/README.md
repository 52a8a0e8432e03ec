# The native delivery core, verified

`endpoint_security` receives Endpoint Security messages on framework threads and
delivers them to Ruby.  Between the two lies a native core: a bounded lock-free
ring of slots, a deadline watchdog with a second ring and a min-heap, and one
atomic answer word per slot, so that every AUTH message gets exactly one
response, from Ruby, the watchdog, the callback itself or the closing client.
This project models that core in Dafny and proves what it promises, over all
runs.

`dafny verify dfyconfig.toml` checks everything.

## How it is modelled

**A state machine** (`Protocol.dfy`).  One step per atomic operation, with
explicit program counters.  The actors are any number of framework callbacks
(`handle_message`), one watchdog thread (`client_native_main`), and one Ruby
actor: the GVL keeps Ruby operations apart from each other, but their steps
interleave with everybody else's, and the spins of `esrb_queue_disarm` and
`client_close_native` are steps of their own.  A weak compare-and-swap may fail
for no reason.  A callback is named by the message it delivers and a slot by its
index.  Commands arrive in any order, whenever Ruby is between two calls: drain (with
any maximum), respond, `release!` and the finaliser, auto-release, `retain!`, close,
wake.  The two allocations of a drain, of its array and of each wrapper, may run any
number of finalisers in the middle of the call (`Collect`); the drain then waits in
the job's `back`.  Plain stores to a slot that no other thread may read yet are grouped into one
step: `Theorems.PlainStoresAreExclusive` shows that nobody else uses the slot during
`DoFill`, and `Theorems.RequestStoresAreExclusive` that neither another callback nor
the watchdog uses the request cell during `DoArmFill`.

Fields of `State` under "History" record what happened (which message claimed
which position, who holds the right to answer it, who must release it).  No step
reads them to decide what to do, with one exception: `Accepted(pos)` in `fates` also
stands for the local variables `position` and `slot` that a callback has had since
its claim (`MySlot`).

**The invariant** comes in layers, each in its own module: `Structure` (claims,
program counters), `Handshake` (occupied/readers, wrappers), `Tokens` (the right
to answer), `Lifecycle` (the close protocol), `Ownership` (the duty to release),
`Arming` (request ring, heap, watchdog's hand), `Wakeup`, `Counters`.
`CallbackSteps`, `WatchdogSteps` and `RubySteps` prove that each step keeps it,
`Runs` puts them together, and `Theorems` says what it means.  A run is a sequence of
states with the actions between them, and reachable states are those at its end;
`Runs.SomeStart`, `Runs.InitIsReachable` and `Runs.FollowsIsReachable` show that there
are such states for every configuration, and that they are closed under steps.
`Traces` is about runs as a whole: what follows if certain calls do not occur.

**Progress.**  `Effects` has what each step does beside keeping the invariant: what it
leaves alone, when it raises the flag and writes its byte, and that it brings its actor
nearer to the end of what it is doing, which `Ranks` measures.
`Progress` builds continuations from that: the watchdog leaves a slot, the callbacks
return, the loop ends when told to stop, and so every spin and every call can end.
The watchdog's sleep is a step that is always open, as its wait is timed
(`ext/endpoint_security/watchdog.c:231-240`).

**Imperative code.**  `DeadlineHeap` is the heap of `watchdog.c` over an array of
entries and slot objects with back-pointers; `WatchdogLoop` is the request ring
and a turn of the main loop; `SlotQueue` is `queue.c` over slot objects, with its
compare-and-swap loops and arbitrary moves of other threads in between;
`MessageWrapper` is the wrapper object of `message.c` on top of it;
`Gaps` is the sequence-gap accounting.  The rings of both the state machine and the
classes are the same `Rings.Ring`, and the heap's `content` is the map that the state
machine's watchdog uses.  `Words` has the sizes of C's numbers.

**Assumptions.**  Atomics are sequentially consistent: the handshakes on
`occupied`/`readers`, `closed`/`active_callbacks` and `notified`/depth are proved
under that assumption only.  Positions are unbounded naturals.  Calls of the
framework are recorded and return anything: a failed response still counts as
the one call.

## A finding

`client_drain` empties the wakeup pipe (`client.c:513`) before it makes the result
array (`client.c:516`).  Making an array raises for a negative size, for one above the
largest array, and for any size when there is no memory for it.  The call then ends
with the pipe empty and `notified` still raised, so that no later producer writes a
byte.  A maximum that is no `long` raises earlier (`client.c:510`), before the pipe is
read, and does no harm.  The model keeps this.

`Theorems.DrainRaisesExactly` says when a drain raises there, and that the wakeup is
lost exactly then, unless the pipe already holds a later byte or some actor is still
about to write one.  `Theorems.RaisingDrainLosesWakeups` shows the loss from every state
in which an announced item waits and no one is about to write, and
`Traces.WakeupCanBeLost` leads to such a loss from every state in which an announced
item waits: those who are about to write do so first.  `Traces.LostStaysLost` says that
nothing but a drain with a proper maximum can tell Ruby anything afterwards, and
`Traces.NoLostWakeupWithoutRaising` that no wakeup is ever lost in a run in which no
drain raises there.  The dispatcher of the library passes no maximum
(`lib/endpoint_security/client.rb:129`), so only a lack of memory affects it.

## Steps of the state machine

| step | source |
|---|---|
| `Arrive`, `DoCheck`, `DoRefuse`, `DoRetain`, `DoLeave` | `ext/endpoint_security/client.c:303-313`, `:337` |
| `DoEnqLoad`, `DoEnqRead`, `DoEnqCas` | `ext/endpoint_security/queue.c:47-65` |
| `DoFull`, `DoFullCount`, `DoFullRelease` | `ext/endpoint_security/client.c:315-324` |
| `DoFill`, `DoSetAnswer`, `DoSetOccupied` | `ext/endpoint_security/client.c:326-331`, `ext/endpoint_security/queue.c:57` |
| `DoArmLoad`, `DoArmRead`, `DoArmCas`, `DoArmFill`, `DoArmPublish` | `ext/endpoint_security/watchdog.c:168-187` |
| `DoSelfCas`, `DoSelfSend` | `ext/endpoint_security/client.c:332-334`, `:72-81` |
| `DoPubLoad`, `DoPubMax`, `DoPubCas`, `DoPubStore` | `ext/endpoint_security/queue.c:71-76` |
| `DoNotifyCas`, `DoNotifyWrite`, `DoRubyNotify`, `DoRubyWrite`, `DoTimeoutNotify`, `DoTimeoutWrite` | `ext/endpoint_security/client.c:251-262` |
| `DoTop`, `DoPopRead`, `DoPopTake`, `DoPopFree`, `DoHeapSet`, `DoClock`, `DoScan` | `ext/endpoint_security/watchdog.c:218-229`, `:91-101` |
| `DoDue`, `DoEnter`, `DoRecheck`, `DoCompare`, `DoDecide`, `DoSend`, `DoCountTimeout`, `DoUnread` | `ext/endpoint_security/watchdog.c:191-211` |
| `DoExit`, `DoAwaitDelete` | `ext/endpoint_security/client.c:57-65` |
| `FirstPoint`, `Begin` | `ext/endpoint_security/client.c:499-511`, `ext/endpoint_security/message.c:321-349` |
| `DoDrainEmpty`, `DoMakeArray`, `DoWrap`, `DoCountDelivered`, `DoClear`, `DoDepthEnq`, `DoDepthDeq` | `ext/endpoint_security/client.c:513-529`, `ext/endpoint_security/message.c:369-379` |
| `Collect` | `ext/endpoint_security/client.c:516`, `:522`, `ext/endpoint_security/message.c:53-62` |
| `DoDeqLoad`, `DoDeqRead`, `DoDeqCas` | `ext/endpoint_security/queue.c:82-99` |
| `DoRespondCheck`, `DoAnswerCas`, `DoAnswerSend` | `ext/endpoint_security/client.c:646-663`, `:72-81` |
| `DoDisarmStore`, `DoDisarmSpin`, `DoReleaseMessage`, `DoStoreSequence`, `DoInvalidate` | `ext/endpoint_security/message.c:44-50`, `ext/endpoint_security/queue.c:103-116` |
| `DoCloseSwap`, `DoCloseSpin`, `DoCloseStop`, `DoCloseAwait`, `DoSweepRead`, `DoDeleteReady`, `DoJoin` | `ext/endpoint_security/client.c:84-137` |

## Model

| member | source | states |
|---|---|---|
| Theorems.NeverAnsweredTwice | ext/endpoint_security/client.c:300-338 | In every reachable state an AUTH message has caused at most one response call, and any other message none, whoever raced for it. |
| Theorems.AnsweredOnceWhenClosed | ext/endpoint_security/client.c:105-137 | Once the close has finished, every AUTH message that was accepted, dropped or refused has caused exactly one response; only a callback that has not yet been refused still owes its own. |
| Theorems.NoAnswerForgotten | ext/endpoint_security/client.c:326-338 | After its callback has returned, an AUTH message is answered, or waits in its own slot with the answer open, or exactly one of watchdog and Ruby is about to answer it. |
| Theorems.OverflowIsAnswered | ext/endpoint_security/client.c:304-324 | A message turned away by a full ring or a closed client has had its default response exactly if it is AUTH, and its retain is undone, when its callback returns. |
| Theorems.WatchdogAnswersItsOwn | ext/endpoint_security/watchdog.c:190-211 | When the watchdog sends, the slot still holds the message that claimed the entry's position; that message is AUTH, unanswered and still retained. |
| Theorems.WatchedIsRetained | ext/endpoint_security/queue.c:102-116 | While the watchdog is a confirmed reader of a slot, the slot is in use and its message has an owner who has not released it. |
| Theorems.NeverEarly | ext/endpoint_security/watchdog.c:223-229 | The watchdog works on no entry before the entry's fire time. |
| Theorems.PlainStoresAreExclusive | ext/endpoint_security/client.c:326-331 | While a callback fills its slot, no other callback works on it, the watchdog is no confirmed reader of it, and Ruby has it neither in hand nor in a valid wrapper. |
| Theorems.RequestStoresAreExclusive | ext/endpoint_security/watchdog.c:174-179 | While a callback fills its request, no other callback writes or publishes that cell, the watchdog neither takes nor reads it, and the slot it copies from holds its own message. |
| Theorems.NoPendingMessageLost | ext/endpoint_security/watchdog.c:165-188 | An occupied slot with an open answer is still being armed, or the watchdog knows exactly its entry: in the request ring, in the heap or in its hand. |
| Theorems.PopsAreInOrder | ext/endpoint_security/watchdog.c:88-102 | Requests for one slot carry increasing positions in ring order. |
| Theorems.ReplacedIsOlder | ext/endpoint_security/watchdog.c:70-86 | An entry that is set into the heap never replaces a newer one of the same slot. |
| Theorems.DueIsInTheRing | ext/endpoint_security/watchdog.c:218-229 | When a pass ends, every heap entry lies after the last clock reading, and an occupied, pending and due slot is still being armed by its callback, or its request waits in the ring, published and carrying its entry. |
| Theorems.HeapHasRoom | ext/endpoint_security/watchdog.c:74-80 | The heap never holds more entries than there are slots, and a new entry always finds room: the silent return of `heap_set` is unreachable. |
| Theorems.DeleteIsQuiescent | ext/endpoint_security/client.c:57-68 | When the client is deleted, no callback is past the closed check, the loop has exited, no answer is open, the ring is empty, and every slot in use belongs to a valid wrapper. |
| Theorems.NoLostWakeup | ext/endpoint_security/client.c:250-262 | Outside a drain, if a queued item's producer is past its notification, the flag is raised, and the pipe holds a byte or someone is about to write one, unless a drain has raised since the last one that got through. |
| Traces.NoLostWakeupWithoutRaising | ext/endpoint_security/client.c:250-262 | The same without exception, for every run in which no drain is called with a maximum that is a `long` but no size for an array, and no array allocation fails. |
| Theorems.DrainRaisesExactly | ext/endpoint_security/client.c:510-516 | A drain that has emptied the pipe raises if and only if its maximum is negative or above the largest array or there is no memory, and an announced wakeup is lost exactly then, unless the pipe holds a later byte or someone is about to write one. |
| Theorems.RaisingDrainLosesWakeups | ext/endpoint_security/client.c:510-516 | From every reachable state with an announced item, Ruby free, the client open and no one about to write a byte, a drain that raises for its maximum or for lack of memory leads to the same state with an empty pipe: the flag is raised and no one will tell Ruby. |
| Traces.WakeupCanBeLost | ext/endpoint_security/client.c:510-516 | From every reachable state with an announced item, Ruby free and the client open, whoever is about to write, a reachable state follows in which the item is still queued and its wakeup is lost. |
| Traces.LostStaysLost | ext/endpoint_security/client.c:250-262 | Once a wakeup is lost, it stays lost through all steps of all actors, until a drain is called whose maximum is a size for an array. |
| Theorems.PhaseOfEverySlot | ext/endpoint_security/queue.c:44-116 | Every slot is in exactly one phase for one position of its index, within a capacity of the enqueue position, and its sequence number alone tells which; the ring never holds more than its capacity. |
| Theorems.TakenInClaimOrder | ext/endpoint_security/queue.c:79-100 | The messages taken out are those that claimed positions 0, 1, 2, ..., in that order, and no message claims twice. |
| Theorems.WrapperShowsItsMessage | ext/endpoint_security/message.c:368-379 | A valid wrapper's slot holds the message that claimed its position, in whatever order other slots are released. |
| Theorems.FullIsFull | ext/endpoint_security/queue.c:49-65 | A producer is told "full" exactly if its position is the current one and that slot still belongs to the previous lap; a stale position only retries. |
| Theorems.RequestsFullIsFull | ext/endpoint_security/watchdog.c:168-187 | A callback is told that the request ring is full exactly if its position is the current one and that cell still belongs to a request of the previous lap. |
| Theorems.EmptyIsEmpty | ext/endpoint_security/queue.c:84-99 | A consumer is told "empty" exactly if its position is the current one and nothing is published there. |
| Theorems.OneOwner | ext/endpoint_security/message.c:34-51 | A retained message is released at most once, and until then exactly one owner is responsible for it: its callback, the queue, its valid wrapper, or Ruby with the slot in its hand; callback and queue never own a released one. |
| Theorems.AllReleasedInTheEnd | ext/endpoint_security/message.c:34-62 | When the client is closed and no wrapper is valid, every retained message has been released exactly once. |
| Traces.HeldSurvives | ext/endpoint_security/message.c:321-349 | From the moment a valid wrapper is held, through any steps of all actors, until `release!` or its finaliser is called: it stays valid and held, its slot shows its message, and the message is not released. |
| Theorems.CountsAddUp | ext/endpoint_security/client.c:314-336 | With no callback inside and none in Ruby's hand, the callbacks that passed the closed check are the dropped, the delivered, the queued and those discarded by the close. |
| Theorems.TimeoutsAreWins | ext/endpoint_security/watchdog.c:202-209 | `timeouts` is the number of answer words the watchdog has won, less the one it is answering. |
| Theorems.DepthsInBounds | ext/endpoint_security/queue.c:68-77 | Every published depth lies in 1..capacity, the recorded maximum is the largest of the completed updates, and the depth a drain reads lies in 0..capacity. |
| Progress.SpinEnds | ext/endpoint_security/queue.c:102-109 | Wherever Ruby spins, for a reader, the callbacks, the loop or the thread, steps of just those it waits for end the spin, while Ruby stays where it is. |
| Progress.LoopEnds | ext/endpoint_security/watchdog.c:218-241 | Told to stop, the watchdog ends its loop after finitely many of its steps, whatever is in its ring and its heap. |
| Progress.CallbacksReturn | ext/endpoint_security/client.c:300-338 | All callbacks that are inside return after finitely many of their steps. |
| Progress.EveryCallCanEnd | ext/endpoint_security/client.c:505-531 | From every reachable state, steps of callbacks, watchdog and Ruby end the call that Ruby is in, and a finaliser in the middle of it: no one waits in a circle. |
| Progress.NobodyIsStuck | ext/endpoint_security/client.c:40-137 | The side conditions of the step functions exclude nothing: every callback that has not returned, the watchdog until it has deleted the client, and Ruby inside a call have a next step. |
| Progress.EveryMessageCanBeAnswered | ext/endpoint_security/client.c:105-137 | From every reachable state, some continuation without new messages finishes the close, lets every callback return, and leaves each AUTH message with exactly one response and every other with none. |
| Runs.NextKeeps | ext/endpoint_security/client.c:300-338 | Every step of every actor keeps the whole invariant. |
| Runs.RunKeeps | ext/endpoint_security/client.c:40-137 | Every state of every run satisfies the invariant. |
| CallbackSteps.EnqClaims | ext/endpoint_security/queue.c:54-58 | Winning the enqueue compare-and-swap keeps the invariant. |
| CallbackSteps.ArmClaims | ext/endpoint_security/watchdog.c:173-175 | Winning the request compare-and-swap keeps the invariant. |
| CallbackSteps.SelfWins | ext/endpoint_security/client.c:72-81 | A callback that could not arm its slot and wins the answer keeps the invariant. |
| WatchdogSteps.RecheckKeeps | ext/endpoint_security/watchdog.c:197-201 | The recheck under the reader count makes the watchdog a confirmed reader. |
| WatchdogSteps.DecideWins | ext/endpoint_security/watchdog.c:202-204 | The watchdog winning the answer word keeps the invariant. |
| WatchdogSteps.HeapSetKeeps | ext/endpoint_security/watchdog.c:220-222 | Moving a popped request into the heap keeps the invariant. |
| RubySteps.DisarmSpinKeeps | ext/endpoint_security/queue.c:102-109 | Leaving the reader spin keeps the invariant: no confirmed reader is left. |
| RubySteps.ReleaseMessageKeeps | ext/endpoint_security/message.c:47-49 | Releasing the message after the disarm keeps the invariant. |
| RubySteps.StoreSequenceKeeps | ext/endpoint_security/queue.c:111-116 | Handing the slot back to producers keeps the invariant. |
| RubySteps.CloseSpinKeeps | ext/endpoint_security/client.c:115-117 | Leaving the spin on `active_callbacks` keeps the invariant: from then on no callback is past the closed check. |
| Arming.NewRequestIsLater | ext/endpoint_security/watchdog.c:165-188 | A new request for a slot carries a later position than every earlier one. |
| Arming.ReplacedIsAnswered | ext/endpoint_security/watchdog.c:70-86 | The entry that `heap_set` overwrites belongs to a message whose answer is no longer open. |
| Arming.PendingIsVisible | ext/endpoint_security/watchdog.c:193-204 | None of the watchdog's tests can miss an armed message whose answer is open. |
| Counters.PublishDepth | ext/endpoint_security/queue.c:71 | The depth computed at publication lies in 1..capacity. |
| Rings.MaskIsAt | ext/endpoint_security/queue.c:50 | The masked index is the position modulo the capacity, for every accepted capacity. |
| Rings.AcceptedIsPowerOfTwo | ext/endpoint_security/queue.c:13-15 | The bit test accepts exactly the powers of two. |
| Rings.PhaseDecoded | ext/endpoint_security/queue.c:44-116 | The sequence number and the two positions determine a cell's phase and position. |
| Rings.CapacityOneIsAmbiguous | ext/endpoint_security/queue.c:13-15 | With capacity one, after any number of rounds of claim, publish, take and return, a published cell can be claimed at once, overwriting its message: it reads like the returned cell one round later. |
| Rings.EnqueueRead | ext/endpoint_security/queue.c:49-65 | What a producer with a current or stale position learns from a sequence number. |
| Rings.DequeueRead | ext/endpoint_security/queue.c:84-99 | What a consumer with a current or stale position learns from a sequence number. |
| Rings.ClaimKeeps | ext/endpoint_security/queue.c:55-57 | A claim takes a free cell of the current position and keeps the ring invariant. |
| Rings.PublishKeeps | ext/endpoint_security/queue.c:76 | Publication keeps the ring invariant and what others have seen. |
| Rings.TakeKeeps | ext/endpoint_security/queue.c:90-92 | A take finds the current position published and keeps the ring invariant. |
| Rings.ReturnKeeps | ext/endpoint_security/queue.c:112-116 | Returning a held cell, in any order, keeps the ring invariant and what others have seen. |
| SlotQueue.Queue.Init | ext/endpoint_security/queue.c:10-35 | Exactly the powers of two from two on are accepted, and the queue starts as the empty ring. |
| SlotQueue.Queue.Enqueue | ext/endpoint_security/queue.c:44-66 | After some moves of other threads the call acts at one instant: it claims the current position if that is free, and otherwise returns nothing and changes nothing. |
| SlotQueue.Queue.PublishSlot | ext/endpoint_security/queue.c:68-77 | Publishes the claimed slot for its own position; its depth lies in 1..capacity and the maximum is raised to at least it, to exactly the larger of the two when undisturbed. |
| SlotQueue.Queue.Dequeue | ext/endpoint_security/queue.c:79-100 | Acts at one instant: takes the current position if it is published, and otherwise returns nothing and changes nothing. |
| SlotQueue.Queue.Disarm | ext/endpoint_security/queue.c:102-109 | The slot is no longer occupied, and the spin ends with the first of its loads that sees no reader. |
| SlotQueue.Queue.Release | ext/endpoint_security/queue.c:111-116 | After some moves of other threads on other cells, the disarmed slot's cell is returned one lap later. |
| MessageWrapper.Message.Respond | ext/endpoint_security/client.c:645-663 | Sends exactly if the client is open, the answer is open, and no other actor wins it between the two checks; on an open client the answer is closed afterwards. |
| MessageWrapper.Message.Release | ext/endpoint_security/message.c:34-51 | A valid wrapper is answered if it can be, disarmed, its message released once while the slot is still held and after a load that saw no reader, and its slot returned; a released one is left alone. |
| MessageWrapper.Message.AutoReleaseAfter | ext/endpoint_security/message.c:340-349 | Releases exactly a valid wrapper that is not held. |
| MessageWrapper.Message.Finaliser | ext/endpoint_security/message.c:53-62 | Releases a valid wrapper, and reports it as leaked exactly if it was held. |
| MessageWrapper.Message.Perform | ext/endpoint_security/message.c:34-62 | Under any sequence of calls the message is released at most once, and exactly if one of the calls is meant to release it; a held wrapper outlives everything but `release!` and the finaliser. |
| DeadlineHeap.Heap.HeapSwap | ext/endpoint_security/watchdog.c:11-19 | Exchanges two entries, keeps every back-pointer and the content. |
| DeadlineHeap.Heap.HeapUp | ext/endpoint_security/watchdog.c:21-32 | From an entry out of place, leaves at most its children out of order, and tells where it went. |
| DeadlineHeap.Heap.HeapDown | ext/endpoint_security/watchdog.c:34-52 | Restores the heap order and keeps the content. |
| DeadlineHeap.Heap.HeapRemove | ext/endpoint_security/watchdog.c:54-68 | Deletes exactly one key from the content, from any index, and keeps order and back-pointers. |
| DeadlineHeap.Heap.HeapSet | ext/endpoint_security/watchdog.c:70-86 | Inserts or overwrites exactly one key and keeps order and back-pointers; does nothing only if the key is new and the array full. |
| DeadlineHeap.Heap.NewEntryFits | ext/endpoint_security/watchdog.c:75-77 | With as many slots as entries at most, a new key finds room. |
| DeadlineHeap.Heap.RootIsLeast | ext/endpoint_security/watchdog.c:224-225 | The root is an entry with the least fire time. |
| DeadlineHeap.Heap.Pass | ext/endpoint_security/watchdog.c:223-229 | Takes roots only, each due at the reading before, until nothing is due at the last reading; what is left is the rest of the content. |
| DeadlineHeap.PassIsInOrder | ext/endpoint_security/watchdog.c:224-229 | The entries of a pass come out in non-decreasing fire time. |
| DeadlineHeap.HasEntry | ext/endpoint_security/watchdog.c:73-74 | A slot has an entry exactly if the entry at its index is its own, whatever a stale index says. |
| WatchdogLoop.Requests.Arm | ext/endpoint_security/watchdog.c:165-188 | Appends the request, or refuses exactly when the ring is full. |
| WatchdogLoop.Requests.Pop | ext/endpoint_security/watchdog.c:88-102 | Takes the oldest request, or reports exactly an empty ring. |
| WatchdogLoop.TakeRequests | ext/endpoint_security/watchdog.c:220-222 | Every waiting request is set into the heap, in order. |
| WatchdogLoop.LastRequestWins | ext/endpoint_security/watchdog.c:220-222 | After that, a slot's entry is its last request. |
| WatchdogLoop.UnrequestedKeeps | ext/endpoint_security/watchdog.c:220-222 | A slot without a request keeps its entry. |
| WatchdogLoop.Turn | ext/endpoint_security/watchdog.c:218-229 | One turn empties the ring into the heap and then leaves nothing due. |
| Deadline.FiresInTime | ext/endpoint_security/client.c:264-279 | The fire time lies between now and the later of now and the deadline; no subtraction underflows. |
| Deadline.SlackIsTheMargin | ext/endpoint_security/client.c:271-278 | An answer that can wait leaves exactly the larger of the margin's share and the minimum before the deadline, and it can wait exactly if that is less than what remains. |
| Deadline.FireTimeIsMonotone | ext/endpoint_security/client.c:264-279 | At one time, a later deadline never fires earlier. |
| Deadline.MarginTicksFit | ext/endpoint_security/client.c:418-420 | The tick conversion saturates exactly when the product would leave 64 bits, and is the exact quotient otherwise. |
| Deadline.SaturatedAnswersAtOnce | ext/endpoint_security/client.c:275-278 | A saturated minimum answers every message at once. |
| Gaps.Counters.Record | ext/endpoint_security/client.c:281-298 | The stored last numbers and the counter are those of the messages seen so far, for any numbers, with 64-bit wrap-around. |
| Gaps.Counters.CountsWhatWasSkipped | ext/endpoint_security/client.c:281-298 | If every stream's numbers increase, the counter is what all streams have skipped. |
| Gaps.GapsTelescope | ext/endpoint_security/client.c:281-298 | The sum of the jumps is the sum over streams of last - first + 1 - count, for any interleaving of streams and versions. |
| Gaps.MissingCounts | ext/endpoint_security/client.c:287-289 | last - first + 1 - count is the number of numbers in between that never arrived. |

## Left out

- Weak memory: interleavings are sequentially consistent; which fences the handshakes need is not modelled.
- 64-bit wrap of positions and the signed difference of sequence and position: positions are naturals.
- Deadline.FireTimeIsMonotone: the margin is an exact fraction, so rounding of `double` is not covered.
- `esrb_queue_depth` from `stats`: with other threads dequeuing between its two reads, no bound holds; the depth is bounded only where the sole dequeuer reads it.
- Gaps.Counters.Record: calls do not overlap; the last number and the seen flag are two exchanges, and concurrent callbacks could mix them.
- Which verdict a response carries: the model counts response calls, not `allow`, `deny`, flags or the cache bit, nor `response_errors` and `delete_errors`.
- `strict_cache`, the AUTH type checks and the warnings before a response in message.c: they only refuse calls before the answer word is touched; the model's respond may be called on any valid wrapper.
- `leaked_messages`: the state machine has the finaliser as a release, between two calls or inside a drain; only MessageWrapper says when it counts as a leak.
- The closing and draining loops of client.c as methods: they are steps of the state machine only, as their interleavings are what matters.
- SlotQueue.Queue.Disarm: who the readers are and that they leave; the counts that its loads see are a parameter with some zero in it, and Progress.SpinEnds and Theorems.WatchedIsRetained say the rest.
- WatchdogLoop.Requests.Arm: covers one thread at a time; its interleavings are those of the state machine.
- Fairness and time: spins and calls can always end, by steps that are shown; that the scheduler takes these steps, or runs the watchdog's thread before a deadline, is not claimed.
- Fork handling, garbage collection order between client and messages, allocation failure other than that of the drain's array (a wrapper that cannot be allocated at client.c:522 would leave its slot with no owner), creation failure of the client, mutexes and condition variables.
- The Endpoint Security framework, and `lib/endpoint_security/client.rb`: the dispatcher is any caller of drain, respond, retain, release, wake and close.
- Field decoding, muting, generated tables, code generation, recorder and diagnostics: marshalling and text without a protocol.
