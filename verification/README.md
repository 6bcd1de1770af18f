# A verified model of the livioark message bus

The message bus (`include/livioark/msgbus`) is a header-only C++ library: a lock-free bounded queue, a
copy-on-write index of wildcard subscriptions, and a dispatcher that routes messages through per-topic workers.
This project models it in Dafny and proves what it is for: first in, first out in every interleaving; nothing lost,
duplicated or reordered within a topic, also across a shutdown; a wildcard index that answers like a linear scan and
never disturbs a reader; subscriptions that neither get lost nor outlive their removal; messages recycled exactly
when their last handle goes.

Check it with `dafny verify dfyconfig.toml --resource-limit 2000000 --verification-time-limit 0`.

## How it is built

Objects that the source updates in place are classes with real loops, each method proved against a specification
function. Concurrency is modelled by labelled transition systems: `Enabled(s, a)` and `Apply(s, a)` say what one
atomic step of one thread does, a run is a sequence of actions, and theorems hold for every `Legal` run. The steps are
the source's own atomic operations in sequentially consistent order; each critical section is several steps, with its
lock as part of the thread's state. Calls and answers are noted by functions that look at a run from outside, and the
theorems about them hold those notes against the logs. That something can happen (a call returns, a message is
dispatched) is stated as a run that leads there from every reachable state.

| files | what they hold |
|---|---|
| `Bits`, `Ring`, `Seqs`, `FifoSpec` | words and powers of two, ring slots, filters and counts, the abstract bounded FIFO |
| `LockFreeQueue` | the queue as one thread runs it, on its array of sequenced cells |
| `QueueProtocol`, `QueueProofs`, `QueueTheorems` | any number of enqueuers and dequeuers: invariant, refinement of the FIFO, order, meaning of a refusal, bounded retries |
| `QueueCalls` | what every answer of a call means, and that a call left alone returns |
| `TopicLevels`, `TopicMatcher` | splitting and joining levels, the two-index match loop, the validator |
| `MatcherAgreement` | what the match loop decides, exactly, and when it agrees with matching level by level |
| `TrieSpec` | the trie as a value, its recursive match against the linear scan |
| `TrieNodes`, `TrieInsertion`, `TrieRemoval`, `WildcardTrie` | the trie on the heap: walk, clone, insert, remove with pruning, published snapshots |
| `TopicSlot`, `TopicRegistry`, `RegistryProtocol`, `RegistryAnswers` | subscriber lists, topic ids, ids under double-checked locking, what every call is answered |
| `SubscriptionProtocol`, `SubscriptionProofs`, `SubscriptionTheorems` | subscribe, unsubscribe and dispatch from any number of threads |
| `SubscriptionShape`, `DispatchTheorems` | the shape of the trie snapshots; whom every dispatch calls, and how often |
| `SubscriptionProgress`, `UnsubscribeTheorems`, `SubscriptionOutcomes` | every lock can be had in the end; which returns of unsubscribe can be relied on; how calls end, and that they can |
| `Message`, `ReferenceProtocol` | reference counts, handles and the object pool: on the heap, and from any number of threads |
| `Intake` | `enqueueMessage` with its five full-queue policies |
| `Delivery`, `MessageBus` | end-to-end delivery, one call after another |
| `BusProtocol`, `BusAccounting`, `BusShutdown`, `BusOrder`, `BusTheorems`, `BusRefinement` | publishers, router, workers and the stopping thread over abstract queues |
| `BusAnswers` | what every answer of publish means under each policy |
| `BusLateness`, `BusLatePublish` | what a stop leaves behind: exactly when, and runs in which it does |
| `BusRuns`, `BusProgress` | nothing gets stuck: messages can be dispatched, publish and stop can return |

Two conventions. The heap trie carries a flat ghost index from paths of levels to nodes, and the theorems about it are
about the map from paths to entries. Where a proof does not need a definition it says so with `hide`, which only takes
facts away from the solver.

## What the code does that its documentation does not say

- A topic with a level `*`, or whose last level is `#`, is reported more than once by the trie
  (`TrieSpec.VisitsOnceIff` gives the exact condition).
- `topicMatches` and the trie are not the same test. On a topic they agree for all well-formed patterns exactly unless
  the topic has a trailing slash after a non-empty level without wildcards, where `splitLevels` drops the slash and the
  loop stops at it (`MatcherAgreement.AgreesIff`). On a pattern, empty levels allowed, they agree for all topics without
  a trailing slash exactly unless the pattern is `/#` or ends in the levels `*`, empty, `#`, where the loop takes the
  hash one level too early (`MatcherAgreement.PatternAgreesIff`).
- `unsubscribe` of an id that another thread is just unsubscribing finds nothing recorded and returns at once, before
  the list is cut: a message dispatched after that return is still delivered (`UnsubscribeTheorems.CalledAfterReturn`),
  although the comment on `unsubscribe` says it is not. `UnsubscribeTheorems.NotFoundReturn` says exactly when such a
  return can be relied on.
- `isValidTopic` rejects a `*` anywhere but at the very end, so it rejects patterns such as `sensor/*/temp` which
  `subscribe` accepts. The well-formedness of patterns used here is therefore its own definition.
- `publish` does not look at `running_`: a message published while `stop()` is under way can be accepted and left in
  the queue, under every policy (`BusLatePublish.LatePublishIsLeftBehind`). Something is left exactly when a publisher
  was between its claim and its publication as the router left, or one has claimed since
  (`BusTheorems.ShutdownLosesNothing`).
- `try_enqueue` returning false does not mean that the queue is full while a dequeuer is between its claim and its
  release; `QueueTheorems.EnqueueRefusal` says what it does mean.
- Topic ids are valid and distinct exactly as long as fewer than 2^32 topics are registered
  (`TopicRegistries.SoundIff`).

## Model

| member | source | states |
|---|---|---|
| `Bits.RoundUpPowerOf2` | include/livioark/msgbus/lock_free_queue.h:98-109 | the shift-or cascade returns the least power of two at least v for 2 <= v <= 2^63, and 2 for any other word |
| `Bits.CascadeFills` | include/livioark/msgbus/lock_free_queue.h:101-106 | the six shifts set every bit up to the highest set one |
| `Bits.MaskIsMod` | include/livioark/msgbus/lock_free_queue.h:17-18 | masking a position with capacity - 1 is its remainder modulo the capacity |
| `LockFreeQueues.LockFreeQueue.constructor` | include/livioark/msgbus/lock_free_queue.h:16-24 | an empty FIFO whose capacity is the rounded request, never below 2 |
| `LockFreeQueues.LockFreeQueue.TryEnqueue` | include/livioark/msgbus/lock_free_queue.h:37-65 | with nothing else in flight, succeeds exactly when fewer than capacity elements are inside, and then appends, however often the weak exchange fails |
| `LockFreeQueues.LockFreeQueue.TryDequeue` | include/livioark/msgbus/lock_free_queue.h:67-95 | with nothing else in flight, fails exactly on the empty queue, and else returns and removes the first element |
| `LockFreeQueues.Push` | include/livioark/msgbus/lock_free_queue.h:62-63 | rewriting the one cell at the enqueue position keeps the ring legal and appends to its window |
| `LockFreeQueues.Pop` | include/livioark/msgbus/lock_free_queue.h:92-93 | releasing the one cell at the dequeue position keeps the ring legal and drops the head of its window |
| `FifoSpec.FirstInFirstOut` | include/livioark/msgbus/lock_free_queue.h:11-12 | on the abstract queue, what was inside and claimed is, in order, what was taken followed by what is inside |
| `QueueProofs.StepInv` | include/livioark/msgbus/lock_free_queue.h:37-95 | every load, exchange, data move and sequence store of any thread keeps the queue invariant |
| `QueueProofs.RunInv` | include/livioark/msgbus/lock_free_queue.h:37-95 | the invariant holds after every run |
| `QueueProofs.DistinctOwners` | include/livioark/msgbus/lock_free_queue.h:51-63 | two operations between claim and release never own the same cell |
| `QueueTheorems.SafetyBounds` | include/livioark/msgbus/lock_free_queue.h:16-24 | dequeue position <= enqueue position <= dequeue position + capacity, each cell's sequence is its round's position, or the previous round's position or its successor, and operations in flight have distinct cells, in every reachable state |
| `QueueTheorems.SequencesNeverDecrease` | include/livioark/msgbus/lock_free_queue.h:62-63 | no cell's sequence ever goes down |
| `QueueTheorems.StepRefines` | include/livioark/msgbus/lock_free_queue.h:37-95 | each step is one step of the abstract FIFO, claims taking effect at the successful exchange |
| `QueueTheorems.RunRefines` | include/livioark/msgbus/lock_free_queue.h:37-95 | every run replays on the abstract FIFO |
| `QueueTheorems.FifoOrder` | include/livioark/msgbus/lock_free_queue.h:37-95 | the k-th dequeue claim delivers the value of the k-th enqueue claim, in every interleaving; nothing is lost, duplicated or invented |
| `QueueTheorems.EnqueueRefusal` | include/livioark/msgbus/lock_free_queue.h:45-56 | false means that at its sequence load the position was current and the previous tenant unreleased: the ring is full of claims or a dequeuer holds that cell |
| `QueueTheorems.DequeueRefusal` | include/livioark/msgbus/lock_free_queue.h:75-86 | the same for an empty or not yet published head; with nothing in flight, exactly zero elements |
| `QueueCalls.EnqueueAnswer` | include/livioark/msgbus/lock_free_queue.h:37-65 | in every run try_enqueue(v) answers true if and only if it made exactly one claim, for v and published, and false if and only if it made none |
| `QueueCalls.DequeueAnswer` | include/livioark/msgbus/lock_free_queue.h:67-95 | in every run try_dequeue answers true if and only if it made exactly one claim, the k-th, and then hands over the value of the k-th enqueue claim; false if and only if it made none |
| `QueueCalls.AloneReturns` | include/livioark/msgbus/lock_free_queue.h:37-95 | from every reachable state a call left alone, its exchanges not failing without cause, returns within eight steps, wherever other threads stopped |
| `QueueTheorems.RetryMeansProgress` | include/livioark/msgbus/lock_free_queue.h:41-61 | a retry is a spurious exchange failure, or the position moved since this thread loaded it |
| `QueueTheorems.RetriesBounded` | include/livioark/msgbus/lock_free_queue.h:41-61 | without spurious failures, the retries of one call are bounded by the claims other threads made meanwhile |
| `QueueTheorems.SignedDifference` | include/livioark/msgbus/lock_free_queue.h:45 | the signed 64-bit difference has the sign of the mathematical one while the values are below 2^63 |
| `TopicLevels.SplitLevels` | include/livioark/msgbus/wildcard_trie.h:197-213 | the loop computes the levels, a trailing slash opening none |
| `TopicLevels.JoinSplit` | include/livioark/msgbus/wildcard_trie.h:197-213 | joining the levels gives the string back if and only if it has no trailing slash, and else loses just that slash |
| `TopicLevels.SplitJoin` | include/livioark/msgbus/wildcard_trie.h:197-213 | levels without slashes, the last not empty, survive joining and splitting |
| `TopicMatcher.TopicMatches` | include/livioark/msgbus/topic_matcher.h:13-47 | the two-index loop decides the character match of the two strings |
| `MatcherAgreement.CharMatchExactly` | include/livioark/msgbus/topic_matcher.h:13-47 | for every pattern whose wildcards are whole levels, empty levels allowed, and every topic: the loop accepts if and only if the levels match, unless it stops at the topic's trailing slash, or it runs past an empty level before a final hash |
| `MatcherAgreement.AgreesExactly` | include/livioark/msgbus/topic_matcher.h:13-47 | one pattern and one topic: the loop and the levels agree if and only if neither of these two happens |
| `MatcherAgreement.CharMatchIsLevelMatch` | include/livioark/msgbus/topic_matcher.h:13-47 | on every well-formed pattern and topic without trailing slash, the loop is matching level by level |
| `MatcherAgreement.AgreesIff` | include/livioark/msgbus/topic_matcher.h:13-47 | for every topic: they agree on all well-formed patterns if and only if the topic does not have a trailing slash after a non-empty level without wildcards |
| `MatcherAgreement.PatternAgreesIff` | include/livioark/msgbus/topic_matcher.h:13-47 | for every pattern whose wildcards are whole levels: they agree on all topics without trailing slash if and only if the pattern is not a hash after one empty level and does not end in a star, an empty level and a hash |
| `MatcherAgreement.EmptyLevelDiffers` | include/livioark/msgbus/topic_matcher.h:13-47 | the shortest pair with a star on which they part: the loop accepts a for `*//#`, the levels do not match |
| `TopicMatcher.IsValidTopic` | include/livioark/msgbus/topic_matcher.h:57-107 | accepts exactly the non-empty strings without trailing slash whose only wildcard, if any, is the last character and a level of its own |
| `TrieSpec.VisitsOnce` | include/livioark/msgbus/wildcard_trie.h:215-264 | on an unambiguous topic the walk visits the node of a pattern once if the pattern matches, and not otherwise |
| `TrieSpec.VisitsOnceIff` | include/livioark/msgbus/wildcard_trie.h:215-264 | that is so for every well-formed pattern if and only if the topic has no star level and does not end in a hash level |
| `TrieSpec.MatchIsWalk` | include/livioark/msgbus/wildcard_trie.h:215-264 | on every topic, ambiguous or not, the walk returns each slot as often as the nodes of its live patterns are visited |
| `TrieSpec.MatchIsScan` | include/livioark/msgbus/wildcard_trie.h:20-21 | on an unambiguous topic the walk returns each slot as often as the linear scan over the live subscriptions |
| `TrieSpec.StoresInsert` | include/livioark/msgbus/wildcard_trie.h:52-76 | an insert adds the subscription at the end of the list the trie stands for |
| `TrieSpec.StoresRemove` | include/livioark/msgbus/wildcard_trie.h:266-291 | clearing an entry and pruning takes just that subscription out of the list, and leaves the trie pruned |
| `TrieSpec.InsertedKeeps` | include/livioark/msgbus/wildcard_trie.h:52-76 | after an insert every node but the root still leads to an entry |
| `TrieSpec.ShakeOneLevel` | include/livioark/msgbus/wildcard_trie.h:280-287 | erasing a bare child on each level of the way back prunes exactly the nodes that lead to no entry |
| `TrieSpec.RemoveUndoesInsert` | include/livioark/msgbus/wildcard_trie.h:52-90 | removing a just inserted fresh id restores exactly the trie before |
| `TrieNodes.MatchNode` | include/livioark/msgbus/wildcard_trie.h:215-264 | on the heap, appends exactly the slots of the abstract walk |
| `TrieNodes.CloneNode` | include/livioark/msgbus/wildcard_trie.h:183-193 | a copy with the same entries and children at every path, made of fresh nodes only |
| `TrieNodes.CloneChildren` | include/livioark/msgbus/wildcard_trie.h:186-192 | the loop over the children copies the whole subtree, in whatever order they come |
| `TrieNodes.FirstStep` | include/livioark/msgbus/wildcard_trie.h:186-192 | every node below another is reached through one of its children |
| `TrieInsertion.InsertAt` | include/livioark/msgbus/wildcard_trie.h:57-73 | walking the levels and making missing nodes yields the trie with the entry inserted, no other path touched |
| `TrieRemoval.RemoveFrom` | include/livioark/msgbus/wildcard_trie.h:266-291 | finds the id if it is anywhere below, takes it out of its node and its slot and prunes; otherwise changes nothing and the id is nowhere below |
| `TrieRemoval.PruneChild` | include/livioark/msgbus/wildcard_trie.h:282-285 | detaches the child exactly when it has no entry and no child |
| `TrieRemoval.NotInChildren` | include/livioark/msgbus/wildcard_trie.h:279-290 | an id that no child subtree has is nowhere below |
| `WildcardTries.CloneSnapshot` | include/livioark/msgbus/wildcard_trie.h:175-181 | a fresh snapshot with the same content and entry count |
| `WildcardTries.WildcardTrie.Insert` | include/livioark/msgbus/wildcard_trie.h:52-76 | publishes a fresh version for the list with the subscription added; the content of every earlier version is unchanged; the entry count is the length of the list |
| `WildcardTries.WildcardTrie.Remove` | include/livioark/msgbus/wildcard_trie.h:79-90 | succeeds exactly when a live subscription has the id, publishes the list without it, cuts it from its slot and from no other; earlier versions keep their content |
| `WildcardTries.WildcardTrie.InsertAndRemove` | include/livioark/msgbus/wildcard_trie.h:52-90 | inserting a subscription with a fresh id and removing it publishes a fresh snapshot with exactly the content before |
| `WildcardTries.WildcardTrie.MatchLoaded` | include/livioark/msgbus/wildcard_trie.h:100-110 | a walk over a version loaded at any time in the past answers for the subscriptions of that time |
| `WildcardTries.WildcardTrie.Match` | include/livioark/msgbus/wildcard_trie.h:100-110 | the multiset of slots is each live slot of the type as often as its pattern is visited; on an unambiguous topic that of the scan by levels; with well-formed patterns and no trailing slash, that of the scan with topicMatches |
| `WildcardTries.WildcardTrie.Empty` | include/livioark/msgbus/wildcard_trie.h:113-116 | true exactly when nothing is subscribed |
| `WildcardTries.MatchAnswers` | include/livioark/msgbus/wildcard_trie.h:100-110 | a trie that stores the list answers with the exact visit counts on every topic, like the scan by levels on an unambiguous one, and like the scan with topicMatches on well-formed patterns besides |
| `WildcardTries.ScanIsLinearScan` | include/livioark/msgbus/topic_matcher.h:13-47 | scanning by levels and scanning with topicMatches return the same slots in the same order |
| `TopicSlots.TopicSlot.AddSubscriber` | include/livioark/msgbus/topic_slot.h:36-44 | the new list is the old one with the subscriber at the end |
| `TopicSlots.TopicSlot.RemoveSubscriber` | include/livioark/msgbus/topic_slot.h:46-69 | the rebuilt list keeps every other subscriber in order; found says whether it was listed |
| `TopicSlots.TopicSlot.Dispatch` | include/livioark/msgbus/topic_slot.h:71-87 | calls every subscriber of the loaded list once, in order |
| `TopicSlots.RemovedIsGone` | include/livioark/msgbus/topic_slot.h:46-69 | after a removal the id is not listed, and everyone else still is |
| `TopicRegistries.TopicRegistry.Resolve` | include/livioark/msgbus/topic_registry.h:23-45 | a known topic keeps its id; a new one gets the next counter value |
| `TopicRegistries.TopicRegistry.ToString` | include/livioark/msgbus/topic_registry.h:48-55 | the topic registered with that id, or the empty string when there is none |
| `TopicRegistries.TopicRegistry.RoundTrip` | include/livioark/msgbus/topic_registry.h:23-55 | to_string undoes resolve, and the id is not the invalid one, before the counter wraps |
| `TopicRegistries.SoundIff` | include/livioark/msgbus/topic_registry.h:38 | ids are nonzero and distinct if and only if fewer than 2^32 topics are registered |
| `RegistryProtocol.StepInv` | include/livioark/msgbus/topic_registry.h:23-55 | every step of any thread under the reader-writer lock keeps both maps inverse to each other |
| `RegistryProtocol.OneStableId` | include/livioark/msgbus/topic_registry.h:23-45 | in every run, two resolves return the same id if and only if they were given the same topic |
| `RegistryProtocol.RunInv` | include/livioark/msgbus/topic_registry.h:23-45 | an id once given never changes |
| `RegistryProtocol.SpellsBack` | include/livioark/msgbus/topic_registry.h:48-55 | a thread that spells an id some resolve has returned reads back its topic |
| `RegistryAnswers.EveryResolve` | include/livioark/msgbus/topic_registry.h:23-45 | in every run before the wrap, two calls of resolve are answered with the same id if and only if they were made with the same topic, and never with the invalid one |
| `RegistryAnswers.EverySpelling` | include/livioark/msgbus/topic_registry.h:48-55 | a call of to_string for an id that some resolve had returned is answered with the topic that resolve was called with |
| `RegistryAnswers.EveryCallIsAnswered` | include/livioark/msgbus/topic_registry.h:23-55 | from every state, whoever holds the lock, some run brings any given call to its answer |
| `SubscriptionProofs.StepInv` | include/livioark/msgbus/message_bus.h:229-292 | every step of any subscribing, unsubscribing or dispatching thread keeps the subscription invariant |
| `SubscriptionProofs.SlotAdds` | include/livioark/msgbus/topic_slot.h:36-44 | publishing the loaded list with one more id keeps the list equal to what was added and not removed |
| `SubscriptionProofs.SlotRemoves` | include/livioark/msgbus/topic_slot.h:46-69 | so does publishing the loaded list without one id |
| `SubscriptionTheorems.OneSlotPerTopic` | include/livioark/msgbus/message_bus.h:489-515 | a topic's slot and its type never change in later slot maps, and no other topic gets it |
| `SubscriptionTheorems.NoSubscriptionLost` | include/livioark/msgbus/message_bus.h:229-261 | in every run each id whose subscribe has returned and of which no unsubscribe has been called is recorded and listed where dispatch looks, and each list is what was added, in order, without what was removed |
| `DispatchTheorems.DispatchDelivers` | include/livioark/msgbus/message_bus.h:517-544 | in every interleaving a dispatch looks up the topic's slot once and loads the trie once, also after an exact slot; it visits that slot if it has the type, then each slot of the loaded trie as often as its pattern is visited; its calls are, list by list, the whole of each list it loaded, in order, and no other |
| `DispatchTheorems.EverySubscriberIsCalled` | include/livioark/msgbus/topic_slot.h:71-87 | in every run, an id whose subscribe has returned before a dispatch begins and of which no unsubscribe is called before it ends is called by it exactly as often as its subscribe asked for: once if topic and type are equal, or as often as its pattern is visited |
| `DispatchTheorems.DispatchEnds` | include/livioark/msgbus/message_bus.h:517-544 | a dispatching thread can go on to its end by itself, waiting for no lock |
| `SubscriptionShape.ShapeStep` | include/livioark/msgbus/wildcard_trie.h:52-90 | in every reachable state the trie has one entry for an id at most, with the pattern recorded, the type asked for and a slot of its own |
| `SubscriptionOutcomes.SubscribeEnds` | include/livioark/msgbus/message_bus.h:229-261 | a subscribe ends without a record if and only if its topic has a slot of another type, and else with its id recorded for what it asked |
| `SubscriptionOutcomes.NothingStale` | include/livioark/msgbus/message_bus.h:277-291 | every entry of the published trie is of an id that is recorded or still worked on; after an unsubscribe that found an id has returned, it is in no list and no entry |
| `SubscriptionOutcomes.EveryCallCanReturn` | include/livioark/msgbus/message_bus.h:229-292 | no deadlock: from every reachable state some run lets any given thread return from its subscribe, unsubscribe or dispatch |
| `SubscriptionTheorems.NeverCalledAgain` | include/livioark/msgbus/message_bus.h:263-292 | once an unsubscribe that found the id recorded has returned, no thread calls the handler in any continuation, except one that had already loaded a list with it, even on a stale trie snapshot |
| `UnsubscribeTheorems.NeverLoadedIff` | include/livioark/msgbus/message_bus.h:263-292 | in every reachable state with an idle thread: no continuation loads a list with the id in it if and only if the id has been handed out, is not recorded, and no call is at work on it: an unsubscribe before it publishes the cut list, or a subscribe that can still succeed |
| `UnsubscribeTheorems.SettledNeverCalled` | include/livioark/msgbus/message_bus.h:263-292 | such an id is never called again, except by a thread that had already loaded a list with it |
| `UnsubscribeTheorems.FoundReturn` | include/livioark/msgbus/message_bus.h:277-291 | the return of an unsubscribe that found the id can always be relied on: no list loaded later names it |
| `UnsubscribeTheorems.NotFoundReturn` | include/livioark/msgbus/message_bus.h:273-274 | the return of one that found nothing can be relied on if and only if the id has been handed out and no other call is at work on it |
| `UnsubscribeTheorems.CalledAfterReturn` | include/livioark/msgbus/message_bus.h:270-291 | a run from a new bus in which it cannot: unsubscribe has returned, no dispatch is under way, and the next message still reaches the handler |
| `SubscriptionTheorems.OrderKept` | include/livioark/msgbus/topic_slot.h:46-69 | two subscribers of a slot stay in the same order as long as both are subscribed |
| `Messages.Message.NotifyDrop` | include/livioark/msgbus/message.h:50-58 | runs the callback if there is one and clears it, so it cannot run twice |
| `Messages.Message.Reset` | include/livioark/msgbus/message.h:73-80 | a recycled object is as good as new |
| `Messages.Message.ReleaseRef` | include/livioark/msgbus/message.h:44-47 | true exactly when the count drops to zero |
| `Messages.ObjectPool.Acquire` | include/livioark/msgbus/object_pool.h:31-36 | the oldest free object, or null |
| `Messages.ObjectPool.Release` | include/livioark/msgbus/object_pool.h:39-45 | keeps the object, or deletes it when the freelist is full |
| `Messages.World.Make` | include/livioark/msgbus/message_bus.h:173-190 | publish takes the oldest object of the freelist, or a new one when that is empty, held by no handle, with the given topic, data and callback, and disturbs no other message |
| `Messages.World.End` | include/livioark/msgbus/message.h:170-178 | a message that came from the pool goes to the end of the freelist if there is room, and any other is deleted; the freelist stays free of duplicates and of objects in use |
| `Messages.World.FreeIsUnheld` | include/livioark/msgbus/object_pool.h:31-45 | nothing in the freelist is held by a handle, and nothing is there twice |
| `Messages.MessagePtr.Adopt` | include/livioark/msgbus/message.h:100-107 | one more handle, one more reference |
| `Messages.MessagePtr.Copy` | include/livioark/msgbus/message.h:114-118 | the copy holds the same message; the count is again the number of handles |
| `Messages.MessagePtr.Move` | include/livioark/msgbus/message.h:132-135 | the new handle takes over the reference of the old one |
| `Messages.MessagePtr.CopyAssign` | include/livioark/msgbus/message.h:120-130 | lets go of the old message, as reset does, and holds the new one; nothing happens when both are the same |
| `Messages.MessagePtr.MoveAssign` | include/livioark/msgbus/message.h:137-146 | the same, taking over the reference; assigning a handle to itself changes nothing |
| `Messages.MessagePtr.Reset` | include/livioark/msgbus/message.h:165-182 | the message ends exactly if this was its only handle, and then once, going back to the pool or being deleted; otherwise the freelist is as before |
| `Messages.MessagePtr.Destroy` | include/livioark/msgbus/message.h:109-112 | the handle is gone, with the effect of reset |
| `Messages.Redirect` | include/livioark/msgbus/message.h:94-186 | how the number of handles of each message changes when one handle is pointed elsewhere |
| `Messages.Held` | include/livioark/msgbus/message.h:153-163 | whatever a handle holds is in use, neither recycled nor deleted |
| `ReferenceProtocol.StepInv` | include/livioark/msgbus/message.h:39-47 | every atomic operation of any thread on a count or on the freelist keeps each count the number of handles and each object in one place |
| `ReferenceProtocol.LastOneEnds` | include/livioark/msgbus/message.h:165-182 | a release is told to end the message if and only if no handle of any thread is left on it |
| `ReferenceProtocol.OnePlace` | include/livioark/msgbus/object_pool.h:31-45 | in every run each object is held with the right count, or in the hand of one thread, or in the freelist once, or deleted, and in no two of these; its message is still to end exactly while it is held, made ready or being ended |
| `ReferenceProtocol.HeldIsCurrent` | include/livioark/msgbus/message.h:94-186 | in every run what a handle points to is the message it came to point to: not ended, not recycled into another, not deleted |
| `ReferenceProtocol.EndedIsGone` | include/livioark/msgbus/message.h:170-178 | in no continuation is a message that has ended held again; its object comes back only as another message |
| `Intakes.Intake.EnqueueMessage` | include/livioark/msgbus/message_bus.h:548-643 | for all five policies, what was queued and accepted is what consumers took, what was dropped and what is queued, in order; callbacks run exactly for the dropped messages; the answer, how many are dropped and how many consumers took are determined by what was queued and by the wake-ups |
| `Intakes.Intake.TryDropOldest` | include/livioark/msgbus/message_bus.h:573-600 | leaves exactly the last capacity messages of the queue and the new one; each attempt that a busy consumer makes fail costs exactly one more, the oldest |
| `Intakes.Intake.TryBlock` | include/livioark/msgbus/message_bus.h:602-641 | takes nothing out itself: what leaves the queue is what consumers took before the first wake-up with news, a stop then means refusal and anything else acceptance; without news it still waits |
| `Delivery.ExactCalls` | include/livioark/msgbus/message_bus.h:521-526 | the slot of the topic calls each exact subscription of this topic and type once, and no other |
| `Delivery.WildCalls` | include/livioark/msgbus/message_bus.h:532-542 | on every topic the slots the trie returns call each wildcard subscription of the type as often as the walk visits its pattern, and no other |
| `MessageBuses.MessageBus.Subscribe` | include/livioark/msgbus/message_bus.h:229-261 | adds a live subscription under the next id, never given before, or fails exactly for a hash before the end of a pattern or a slot of another type |
| `MessageBuses.MessageBus.Unsubscribe` | include/livioark/msgbus/message_bus.h:267-292 | takes exactly this subscription out; an unknown id changes nothing |
| `MessageBuses.MessageBus.GetOrCreateSlot` | include/livioark/msgbus/message_bus.h:490-515 | the one slot of the topic, made on first use; an error if it has another type |
| `MessageBuses.MessageBus.DispatchMessage` | include/livioark/msgbus/message_bus.h:517-544 | on every topic each live subscription of the type is called once if its topic is equal, or as often as the walk visits its pattern, and no other; on an unambiguous topic exactly once if it is equal or matches |
| `BusTheorems.StepInv` | include/livioark/msgbus/message_bus.h:548-842 | every step of every publisher, router, worker or the stopping thread keeps all laws of the bus |
| `BusTheorems.RunInv` | include/livioark/msgbus/message_bus.h:548-842 | the laws hold after every run |
| `BusTheorems.Conservation` | include/livioark/msgbus/message_bus.h:548-842 | every message given to the bus is in exactly one place: queued, in a hand, dispatched, dropped or rejected |
| `BusAnswers.EveryAnswer` | include/livioark/msgbus/message_bus.h:548-643 | in every run publish answers false if and only if the message of that call was rejected: ReturnFalse found no room, Block was about to wait on a stopped bus, or BlockTimeout was, or its time was up; true if and only if it was accepted, or dropped as the newest because DropNewest found no room; no call takes out more messages than its attempts found no room |
| `BusAnswers.OnlyThePolicy` | include/livioark/msgbus/message_bus.h:548-643 | in every run only DropNewest drops a new message, only DropOldest takes an old one out, and every rejected message has a call refused for one of the reasons of its policy |
| `BusProgress.AcceptedCanBeDispatched` | include/livioark/msgbus/message_bus.h:723-842 | from every reachable state of a running bus some run dispatches all that was accepted and not evicted, accepting nothing more |
| `BusProgress.PublishCanReturn` | include/livioark/msgbus/message_bus.h:548-643 | from every reachable state, running or not, some run lets any given publish return, under every policy |
| `BusProgress.StopCanReturn` | include/livioark/msgbus/message_bus.h:125-165 | from every reachable state of a stop, some run lets it return |
| `BusTheorems.Callbacks` | include/livioark/msgbus/message.h:50-58 | a drop callback runs at most once, and in every reachable state it has run if and only if its message was dropped |
| `BusTheorems.TopicOrder` | include/livioark/msgbus/message_bus.h:723-842 | in every run the dispatched messages of a topic, followed by those in the worker's hand, its queue, the router's hand and the main queue, are the accepted ones not evicted, in order |
| `BusTheorems.ThroughWorker` | include/livioark/msgbus/message_bus.h:769-777 | what holds of one worker's messages holds of each topic routed to it |
| `BusTheorems.RouterPushesToLiveWorker` | include/livioark/msgbus/message_bus.h:750-777 | the router never pushes to a worker that has left its drain loop |
| `BusTheorems.ShutdownLosesNothing` | include/livioark/msgbus/message_bus.h:125-165 | when stop returns all worker queues are empty; under every policy, the main queue is empty, and every accepted message not evicted has been dispatched, in order within its topic, if and only if no publisher was between claim and publication when the router left and none has claimed since; so it is when no publish overlapped |
| `BusLateness.LateInvStep` | include/livioark/msgbus/message_bus.h:548-842 | every step of every thread keeps the account behind it: with the router gone, something is queued exactly if something was late |
| `BusLatePublish.LatePublishIsLeftBehind` | include/livioark/msgbus/message_bus.h:173-191 | for every policy and any number of workers and publishers, a run in which a publish during stop reports success and its message is neither dispatched nor dropped |
| `BusShutdown.ShutdownStep` | include/livioark/msgbus/message_bus.h:816-841 | every step keeps the running and drained handshake between the stopping thread, the router and the workers |
| `BusRefinement.StepRefinesSingleQueue` | include/livioark/msgbus/message_bus.h:723-842 | projected to one topic, each step of the routed bus is a step of a bus with one queue and one dispatcher, or no step |

## Left out

- Memory orders and the hardware memory model: atomic steps are sequentially consistent, and both branches of `MSGBUS_HAS_ATOMIC_SHARED_PTR` are one atomic load or store.
- Wrap-around of queue positions at 2^64, and of subscription ids: both are natural numbers here; `QueueTheorems.SignedDifference` covers the signed comparison below 2^63.
- Sleeping, spinning, yielding and clocks: wake-ups and time-outs happen at any moment, as parameters or as nondeterministic steps.
- Fair scheduling and lost notifications: `BusProgress`, `SubscriptionOutcomes` and `RegistryAnswers` say that a run to the return exists, not that the scheduler takes it; wake-ups happen at any moment.
- BusTheorems.ShutdownLosesNothing: covers one `stop()` at a time, because a second concurrent call returns at once without waiting.
- Intakes.Intake.EnqueueMessage: one publisher at a time, with what consumers do meanwhile as a parameter; the concurrent policies are in the bus protocol.
- Messages.MessagePtr.Reset: handles are used one operation after another, although the counts are atomic in the source; `ReferenceProtocol` has the counts in any interleaving, with each handle used by one thread at a time.
- Coroutine support (`AsyncWaitAwaitable`): depends on the coroutine runtime.
- Topic handles (`TopicHandle`): publish with a pre-resolved id, on the same path as `publish`.
- Handler bodies, exceptions inside handlers and templates: a type is a tag, a handler call is an entry in a trace.
- Hash functions: routing uses some fixed function of the topic id, and unordered maps are maps.
- The bus over concrete queues: the bus protocol runs on the abstract FIFO of claims and releases, which `QueueTheorems.StepRefines` justifies.
- The destructors of the queue and the pool, which drain what is left.
- `include/livioark/log`, `include/livioark/comm` and the bundled third-party libraries: logging wrappers and vendored code.
