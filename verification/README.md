# Verified models of SPUDlib's stateful cores

SPUDlib is a C prototype of SPUD (draft-hildebrand-spud-prototype-02).  This project
models its four stateful cores in Dafny and proves properties of whole runs of them.
`dafny verify dfyconfig.toml` checks everything.

Each core has the same layers.

* A **model on values**: functions that follow the C code branch by branch and log what
  the outside world sees.  Allocation results, random IDs, hash and comparison functions,
  callbacks and the CBOR decoder are parameters.
* **Laws and theorems**: what every step keeps, and what therefore holds of every run.
* **Classes on the heap**: the C code's linked lists, arrays and tables, changed in
  place.  Every method is proved to take `model` (or `site`) to exactly what the function
  of the value model says, so the theorems hold of the heap code too.

## The cores

**Event dispatcher** (`EventModel`, `EventLaws`, `EventTheorems`, `EventCalls`, `EventRuns`,
`EventList`, `EventDispatcher`).  Callbacks are arbitrary: a `Program` maps everything
logged so far to the list of bind, unbind, trigger, destroy and set-handled calls that the
callback just invoked makes.  The log is read by three independent specifications: an order automaton
(`Watch`), a map to which requests are applied at once (`Replay`), and the origin of the
handled flag (`HandledIn`).  `EventCalls` ties the log to what was really asked for: the
operations of the run and the scripts of the program, in order and with all arguments.
`fault` marks the two places where the C code follows a pointer it must not follow: the
saved head of a moment that starts, and the end of the running list.  For both it is
proved exactly when that happens, in any run, and for each `EventRuns` holds a run on one
event with one binding in which it does.  `misuse` records a breach of the usage rules
`MayUnbind` and `MayTrigger`; a run without misuse has no fault.

**Hash table** (`TableModel`, `TableLaws`, `TableTheorems`, `TableLayout`, `HashTable`).
Pointers are natural numbers with 0 for NULL; `hash` and `cmp` are parameters that fit
together (`Keys.Lawful`).  Counters have 32 bits.  The reference meaning is a history of requests
in which the last one about a key decides (`Latest`).  Cleaner calls are accounted for
over a whole life, down to the NULL values that the node-value setter forgets.  The load
bound holds while the product `bcount * 3` does not wrap again right after a growth
(`Roomy`); it is false in general, with an if-and-only-if and a first counterexample.

**Memory pool** (`PoolModel`, `PoolLaws`, `PoolTheorems`, `MemoryPool`).  The n-th call of
malloc succeeds or fails as an arbitrary function says.  The header promises that
cleaners run in the order of registration and before any memory is freed
(`include/ls_mem.h:21-23`, `include/ls_mem.h:206`).  The code does neither: it prepends, and frees
pages between cleaners.  The model follows the code; lemmas say exactly what becomes of
those promises, and `HeaderPromisesFail` is a session of two registrations and one
request that breaks both.

**Tubes** (`SpudWire`, `TubeModel`, `TubeLaws`, `TubeTheorems`, `TubeManager`).  Any number
of managers, joined by a network that loses, repeats, reorders and misdelivers packets
but delivers only what was sent.  On the heap a `Fleet` of managers takes the very steps of
that `World`, so the theorems across managers hold of it.  The wire format agrees with
draft-hildebrand-spud-prototype-02, "Packet layout": magic number d80000d8, eight bytes of
ID, two bits of command, the adec and pdec bits.

## Model

| member | source | states |
|---|---|---|
| EventTheorems.EveryRunIsOrderly | src/ls_eventing.c:156-244 | in every run moments start in trigger order, each only when all earlier ones are freed, none after a destroy request; a started moment is freed only after exactly the calls it listed and then its result callback, once, if it has one; a live dispatcher with an empty queue has started and freed every moment triggered, one that is destroyed has freed them all and its end is the last thing that happens, and no id occurs twice |
| EventTheorems.EveryRunIsTruthful | src/ls_eventing.c:172-192 | a moment starts with the event, data and result callback it was triggered with; every call gets the argument bound last; a result callback is told handled exactly when some callback of its moment left the flag set by its own doing; that the log says truly what was bound and triggered is the matter of the next rows |
| EventCalls.EveryRequestIsLogged | src/ls_eventing.c:589-801 | in every run without a fault the binds, unbinds, triggers, creations and destroy requests in the log are exactly those that the operations and the scripts of the callbacks make and that find memory, in that order and with all their arguments |
| EventCalls.EveryRunIsAsAsked | src/ls_eventing.c:156-204 | so every callback is called with the argument of the last request to bind it, and the k-th moment has the event, data and result callback of the k-th request to trigger |
| EventCalls.EveryListIsAsWanted | src/ls_eventing.c:589-709 | so after every run an event's list is the map of all those requests applied at once and in order |
| EventCalls.BindSetsArgument | src/ls_eventing.c:589-660 | a bind, by the application or a callback, sets the argument of its callback on its event to the one given and touches no other, if there is memory or the callback is listed |
| EventCalls.TriggerAppends | src/ls_eventing.c:335-375 | a trigger from a callback appends one moment, with the event, data and result callback given, the present head and an unset handled flag, and nothing else changes |
| EventTheorems.NoFaultWithoutMisuse | src/ls_eventing.c:662-709 | whatever callbacks do within the usage rules, no dangling saved head is followed and no unbind runs off the list; the exact conditions are the next two rows |
| EventTheorems.EveryStartFaultsIff | src/ls_eventing.c:170-175 | at any point of any run, misuse included, starting the next moment follows a freed head if and only if a head was saved at trigger time and it is not the head of the list any more |
| EventTheorems.ScriptFaultsIff | src/ls_eventing.c:691-706 | the calls that a callback makes go wrong if and only if one of them names an event there is not or unbinds from the running list a callback that is not listed at that point |
| EventRuns.StaleHeadRun | src/ls_eventing.c:357-360 | a callback that triggers its own event and then unbinds itself makes the run follow a freed head |
| EventRuns.RunOffRun | src/ls_eventing.c:691-706 | a callback that unbinds from its own event a callback that was never bound makes the run follow the end of the list |
| EventTheorems.DeferredRefinesImmediate | src/ls_eventing.c:589-709 | between moments an event's list is the map obtained by applying every bind and unbind at once and in order; no callback is listed twice |
| EventTheorems.DeferredRefinesImmediateBetween | src/ls_eventing.c:99-131 | the same between any two moments of one drain: a callback is listed exactly if the last request about it was a bind |
| EventTheorems.SurvivorsKeepOrder | src/ls_eventing.c:99-131 | after a moment the list is the callbacks of the old list that are not left flagged when the moment ends, in their old order, then those bound during the moment and not left flagged |
| EventTheorems.EveryMomentCallsItsListIff | src/ls_eventing.c:156-186 | between any two moments of any run, the next moment calls exactly the callbacks its event's list holds when it starts, each once and in list order, if and only if the head saved at trigger time is still the head; otherwise it calls nobody |
| EventTheorems.WholeListIffHeadUnchanged | src/ls_eventing.c:170-175 | a starting moment sets out to call the whole current list if and only if the head saved at trigger time is still the head |
| EventTheorems.MissedOnlyIfEmptyBefore | src/ls_eventing.c:357-360 | between any two moments, within the usage rules, a waiting moment's saved head is the head of its list, or it was NULL because the list was empty |
| EventRuns.LateBindingIsMissed | src/ls_eventing.c:357-360 | a run within the usage rules in which a callback triggers a second event and then makes the first binding on it: the binding is there when the moment starts and is not called |
| EventCalls.ListIsMissedIffBoundLate | src/ls_eventing.c:335-375 | within the usage rules a moment calls its whole list if and only if a callback was bound to its event when it was triggered, or none is when it starts |
| EventTheorems.RankedDrainEnds | src/ls_eventing.c:234-238 | if callbacks trigger only events of lower rank, any number of times, every drain loop ends |
| EventTheorems.RankedDrainRestsIff | src/ls_eventing.c:234-238 | with such callbacks a drain comes to rest without a fault, which is what the drain on the heap asks for, if and only if it never has one |
| EventTheorems.RuleAbidingTriggerRests | src/ls_eventing.c:211-244 | after any run, a trigger whose callbacks are such and keep to the usage rules comes to rest without a fault, and the run goes on with an empty queue |
| EventTheorems.WatchedIsOrderly | src/ls_eventing.c:156-244 | every log the order automaton accepts is orderly in terms of the log alone, and loses or doubles no moment |
| EventLaws.RunKeeps | src/ls_eventing.c:211-244 | every run keeps the invariant that ties lists, identities, queue, log and automaton together, or it has faulted, and then misuse was recorded |
| EventList.Event.RemoveBinding | src/ls_eventing.c:48-97 | finds the binding of a callback, takes its node out of the chain and returns the node before its place |
| EventList.Event.Bind | src/ls_eventing.c:589-660 | in-place bind: a rebound callback keeps its place, flags and node, a new one goes last, a failed allocation changes nothing |
| EventList.Event.UnbindNow | src/ls_eventing.c:681-690 | in-place immediate unbind removes exactly that binding |
| EventList.Event.UnbindLater | src/ls_eventing.c:691-706 | in-place deferred unbind flags exactly that binding, or reports that the walk ran off the list, exactly if the callback is not listed |
| EventList.Event.SetBindStatus | src/ls_eventing.c:133-144 | every listed binding becomes one that was bound before the moment |
| EventList.Event.ProcessPendingUnbinds | src/ls_eventing.c:99-131 | the chain loses exactly the flagged bindings and keeps its order |
| EventDispatcher.MomentQueue.Append | src/ls_eventing.c:217-225 | the moment goes last; tail is NULL exactly if head is, else the last node of an acyclic chain |
| EventDispatcher.MomentQueue.DropHead | src/ls_eventing.c:196-202 | the head leaves, and the tail is reset when the queue is empty |
| EventDispatcher.Dispatcher.CreateEvent | src/ls_eventing.c:482-567 | a new, not empty name and memory for it: an event with an empty list joins, everything else stays; otherwise it is refused and nothing changes |
| EventDispatcher.Dispatcher.BindOn | src/ls_eventing.c:589-660 | on the heap, bind does to the dispatcher what the model says and leaves other events alone |
| EventDispatcher.Dispatcher.UnbindIdle | src/ls_eventing.c:681-690 | the same for unbind on an event that is not running |
| EventDispatcher.Dispatcher.UnbindRunning | src/ls_eventing.c:691-706 | the same for unbind on the running event; a callback that is not listed is reported, and the model faults exactly there |
| EventDispatcher.Dispatcher.EnqueueOn | src/ls_eventing.c:335-375 | a trigger saves the list head and appends a moment |
| EventDispatcher.Dispatcher.CallBinding | src/ls_eventing.c:177-185 | one callback with all its calls back into the dispatcher; it cannot take back handled |
| EventDispatcher.Dispatcher.CallAll | src/ls_eventing.c:172-186 | the loop over the list while callbacks change it |
| EventDispatcher.Dispatcher.ReportResult | src/ls_eventing.c:188-192 | the result callback runs once, if there is one |
| EventDispatcher.Dispatcher.HandleTrigger | src/ls_eventing.c:156-204 | one whole moment |
| EventDispatcher.Dispatcher.DrainQueue | src/ls_eventing.c:234-238 | the drain loop reaches the model's state of rest |
| EventDispatcher.Dispatcher.FreeAll | src/ls_eventing.c:448-459 | waiting moments are freed unserved, in order |
| EventDispatcher.Dispatcher.Destroy | src/ls_eventing.c:429-462 | destruction by the application |
| EventDispatcher.Dispatcher.Trigger | src/ls_eventing.c:772-801 | a trigger by the application: enqueue, drain, and destroy if that was asked for; without memory for the moment it fails and changes nothing |
| TableTheorems.EveryRunIsAMap | src/ls_htable.c:57-398 | in every run look-up gives what the last request about the key left, count is the number of nodes, every node hangs where its hash says, no two nodes have equal keys |
| TableTheorems.EveryCallUpdatesTheMap | src/ls_htable.c:139-398 | each call changes the map as its caller asked and no other key; growth shows nowhere |
| TableTheorems.FailedPutInvisible | src/ls_htable.c:325-344 | a put fails exactly when its key is new and an allocation it needs fails, and then the map, the nodes, the count and the cleaner calls are unchanged even if the table has grown |
| TableTheorems.LoadBoundKeptIffRoomy | src/ls_htable.c:325-336 | inserting keeps count within the threshold if and only if the table was roomy |
| TableTheorems.FewPutsAlwaysRoomy | src/ls_htable.c:325-329 | a run with at most 0x1FFFFFFF puts, whatever else it calls, always finds a roomy table |
| TableTheorems.EveryRunIsAmortized | src/ls_htable.c:82-122 | in every run that is always roomy, count is within the threshold and three quarters of the buckets, and all growth has relinked at most two nodes for each entry inserted |
| TableTheorems.FilledPastBoundIff | src/ls_htable.c:325-336 | a new table filled one past its threshold is within the new threshold if and only if the product does not wrap |
| TableTheorems.LoadBoundFails | src/ls_htable.c:325-336 | with 715827883 buckets it fails |
| TableTheorems.EachStoreCleanedOnce | src/ls_htable.c:235-259 | over a life that ends in destroy, a cleaner is called on a value exactly as often as they were stored together, if neither is NULL |
| TableTheorems.EachStoreAccountedFor | src/ls_htable.c:139-259 | over a life that ends in destroy, the calls of a cleaner on a value, NULL included, and the NULLs stored with it that the node-value setter overwrote are together exactly the stores |
| TableTheorems.NullOverwrittenSilently | src/ls_htable.c:153-156 | over a life that ends in destroy, a cleaner is called for every NULL stored with it if and only if no call of the node-value setter overwrites one |
| TableTheorems.DestroyKeyIffKeyLeaves | src/ls_htable.c:308-320 | every cleaner call, of every operation and of destroy, is about key pointer, value and cleaner of an entry that the table held; destroy_key is true exactly if the key pointer is gone afterwards, and replace exactly if there still is an entry for the key |
| TableTheorems.CleanedInListedOrder | src/ls_htable.c:235-259 | clear and destroy call the cleaners in the order in which first and next list the nodes |
| TableLayout.EveryPutLaysOut | src/ls_htable.c:322-358 | after any run, putting a new key grows the table exactly if (count + 1) exceeds 3n / 4, from n to 2n + 1 buckets, in 32 bits; growing turns round each chain; the new node comes first in its bucket and no other moves |
| TableLayout.GrowthReverses | src/ls_htable.c:104-118 | after growth each chain is what belongs there of the old enumeration, backwards |
| TableLayout.EveryRunHasBuckets | src/ls_htable.c:191-233 | a table has 509 buckets or as many as asked for, and then only puts change that, as above |
| TableLayout.ChangesKeepOrder | src/ls_htable.c:139-189 | removing a node or changing its value leaves all others in their place in the enumeration |
| TableTheorems.WalkFollowsFirstAndNext | src/ls_htable.c:400-465 | a walk visits a prefix of what first and next list, up to the first stop, though its function removes visited nodes; each node is listed once; the nodes left are those not removed |
| TableLaws.LookupShows | src/ls_htable.c:57-80 | the search in one chain decides about the whole table |
| TableLaws.TotalResized | src/ls_htable.c:82-122 | growing loses no node and doubles none |
| TableLaws.RunGood | src/ls_htable.c:292-398 | every run keeps placement, unique keys and agreement with the history |
| TableTheorems.RunCounted | src/ls_htable.c:188-188 | every run keeps count equal to the number of nodes modulo 2^32 |
| HashTable.HTable.FindNode | src/ls_htable.c:57-80 | the loop returns the first matching node of the chain, or NULL |
| HashTable.HTable.Get | src/ls_htable.c:280-290 | the value the map holds, or NULL |
| HashTable.HTable.PutValue | src/ls_htable.c:139-157 | in-place change of a node's value, with the cleaner call |
| HashTable.HTable.RemoveNode | src/ls_htable.c:159-189 | in-place unchaining of a node, with the cleaner call |
| HashTable.HTable.Remove | src/ls_htable.c:360-370 | removal by key |
| HashTable.HTable.MoveChain | src/ls_htable.c:106-117 | the inner loop relinks one old chain into the new array |
| HashTable.HTable.Resize | src/ls_htable.c:82-122 | in-place growth, or nothing if the array cannot be allocated |
| HashTable.HTable.Put | src/ls_htable.c:292-358 | put on the heap is the put of the model, with both failure points |
| HashTable.HTable.Clear | src/ls_htable.c:372-398 | all nodes go, with their cleaner calls in bucket order, and each is freed once |
| HashTable.HTable.Destroy | src/ls_htable.c:235-259 | the cleaner calls of destroy; the nodes freed are all those in the chains, bucket by bucket, none twice |
| HashTable.HTable.FirstNodeFrom | src/ls_htable.c:400-413 | the first node of the first bucket that has one |
| HashTable.HTable.NextNode | src/ls_htable.c:415-437 | the next node in bucket order |
| HashTable.HTable.WalkTable | src/ls_htable.c:439-465 | the walk loop, with a function that may remove the node it is given |
| PoolTheorems.NothingLeaks | src/ls_mem.c:251-306 | create, any requests and registrations, destroy: the heap is what it was, nothing freed twice or used after free, whichever mallocs fail |
| PoolTheorems.RequestServedIff | src/ls_mem.c:337-374 | a request is served exactly if it is empty, ends within the head page, or the two or three mallocs it needs succeed; it hands out memory exactly if it is served and not empty |
| PoolTheorems.RequestTakes | src/ls_mem.c:337-374 | a served request takes from the heap a block of its own size and a cleaner, or nothing, or a page with descriptor and cleaner |
| PoolTheorems.EverySessionIsAsAsked | src/ls_mem.c:308-374 | every session hands out pieces of exactly the sizes requested and served, and registers exactly the functions and arguments given, in order |
| PoolTheorems.FailureLeavesNoTrace | src/ls_mem.c:28-117 | a failed request or registration leaves heap and pool as they were |
| PoolTheorems.CleanersRunInReverse | src/ls_mem.c:289-335 | destroy runs every registered cleaner once, latest first, each in a heap with exactly the blocks there were when it was registered |
| PoolTheorems.MemoryThereIffAllocatedBefore | src/ls_mem.c:289-306 | memory is still there when a cleaner runs if and only if its block was there at registration |
| PoolTheorems.RegistrationOrderIff | include/ls_mem.h:21-23 | cleaners run in the order of registration exactly if the registrations read the same backwards |
| PoolTheorems.LaterBlockFreedFirst | include/ls_mem.h:206-206 | a large block requested after the registrations is freed before any of the cleaners runs |
| PoolTheorems.HeaderPromisesFail | include/ls_mem.h:21-23 | two registrations and one large request: the cleaners run in the opposite order, and the block is gone before either runs |
| PoolTheorems.MemoryIsDisjoint | src/ls_mem.c:54-73 | everything handed out lies inside an allocated block of the pool, and no two pieces overlap |
| PoolTheorems.PoolSizeBound | src/ls_mem.c:337-374 | size is page size times pages plus large requests; consecutive pages hold more than one page; size is at most one page plus twice the bytes requested |
| PoolLaws.RunKeeps | src/ls_mem.c:308-374 | every operation keeps ownership, order of cleaners, accounts and placement |
| MemoryPool.PoolPage.Take | src/ls_mem.c:54-73 | a page serves a request at its mark, or not at all |
| MemoryPool.PagedPool.AddCleaner | src/ls_mem.c:308-335 | a context is prepended, or nothing changes |
| MemoryPool.PagedPool.MallocCleaned | src/ls_mem.c:28-49 | a block with its cleaner, or the block is given back |
| MemoryPool.PagedPool.AddPage | src/ls_mem.c:88-117 | a page with its cleaner, or both blocks are given back |
| MemoryPool.PagedPool.Malloc | src/ls_mem.c:337-374 | a request, from the head page, a new page or on its own |
| MemoryPool.PagedPool.Create | src/ls_mem.c:251-287 | a pool, or nothing allocated |
| MemoryPool.PagedPool.Destroy | src/ls_mem.c:289-306 | the loop frees every owned block once, each while it is allocated, and restores the heap |
| SpudWire.RoundTrip | src/tube.c:152-179 | every packet sent is recognised as SPUD and parsed to the same ID, command, flags and concatenated chunks, without a body if they are all empty |
| SpudWire.WireFormat | src/tube.c:152-179 | every packet sent is, byte by byte, d8 00 00 d8, the ID, command bits 00, 40, 80 or c0 for DATA, OPEN, CLOSE or ACK, 20 for adec, 10 for pdec, and the chunks in order |
| SpudWire.SpudIffSendable | src/spud.c:15-24 | a packet is recognised, with its reserved bits 0, if and only if some packet goes out as these bytes |
| SpudWire.AcceptedIsSendable | src/spud.c:15-24 | a packet that is accepted could have been sent if and only if its reserved bits are 0 |
| SpudWire.ReceivedWholeIff | src/tube_manager.c:893-923 | the receive buffer of 1500 bytes loses nothing exactly if the body has at most 1487 |
| SpudWire.Header.Init | src/spud.c:26-41 | the header fields are written in place |
| SpudWire.Send | src/tube.c:130-186 | the vectors gathered in the loop are the datagram, with the bytes named above |
| TubeTheorems.EveryRunIsHonest | src/tube_manager.c:998-1081 | every fact of every run rests on earlier ones: accepted only for an opened ID whose OPEN was sent, confirmed only by who accepted, running only after a confirmation, data only as it was sent and only for opened IDs |
| TubeTheorems.RunningMeansAccepted | src/tube_manager.c:1071-1079 | an initiator's running tube was accepted and confirmed by some responder; with fresh IDs that is another manager, and no one else opened its ID |
| TubeTheorems.EveryTraceInOrder | src/tube_manager.c:1036-1080 | the events of every tube object are add, at most one running (initiators only, before any data), data, then remove, or close and remove |
| TubeTheorems.EveryTraceIsDue | src/tube_manager.c:1031-1081 | in every run the events raised about a tube object are those that the packets delivered and the calls made ask for in the state they find, in that order, none lost or doubled |
| TubeTheorems.StateMatchesTrace | src/tube_manager.c:1044-1080 | a tube in the table was added and not closed or removed; one that is opening has raised nothing else; a running initiator has raised running |
| TubeTheorems.EveryTubeHasItsState | src/tube_manager.c:1031-1081 | in every run a tube in the table that was not closed by the application is running if it was accepted; if it was opened, it is running once that was raised and opening before |
| TubeTheorems.AcceptedTubeWorks | src/tube_manager.c:1004-1067 | a responder that gets OPEN for an unknown ID answers with ACK, raises add, then the data that comes, then close and remove when CLOSE comes |
| TubeTheorems.OpenedTubeWorks | src/tube_manager.c:1136-1186 | a tube that is opened sends OPEN, ignores data before the ACK, raises running on it, then the data; a second ACK does nothing |
| TubeTheorems.ClosedTubeIsDeaf | src/tube.c:397-408 | a tube that the application closes says CLOSE and ignores every packet from then on |
| TubeTheorems.PolicyDecides | src/tube_manager.c:1004-1042 | a manager answers an OPEN for an unknown ID if and only if it was last told to respond |
| TubeTheorems.AcceptsOnlyIfTold | src/tube_manager.c:1115-1128 | in every run a manager accepts only after it was told to respond |
| TubeTheorems.EffectIff | src/tube_manager.c:1044-1081 | a packet for a tube in the table has an effect in exactly three cases, none of them for a closed tube |
| TubeTheorems.ClosedStaysClosed | src/tube.c:397-408 | no step takes a closed tube out of the closed state while it is in the table |
| TubeTheorems.EveryHandshakeCounted | src/tube_manager.c:1004-1042 | in every run exactly one OPEN goes out for each tube opened with an ID, and exactly one ACK for each tube accepted for it, however often packets are repeated |
| TubeTheorems.NetworkDrains | src/tube_manager.c:1004-1067 | without duplication no schedule of deliveries is longer than twice the OPENs and once the other packets in flight |
| TubeTheorems.IdKeysLawful | src/tube_manager.c:84-100 | the comparison of IDs, with any hash of them, is what the hash table asks for |
| TubeLaws.RunKeeps | src/tube_manager.c:484-540 | every run keeps honest logs, orderly objects and tables that fit the log |
| TubeManager.PacketSurvives | src/tube_manager.c:991-1003 | the packet that one manager sends is the packet that another one handles |
| TubeManager.TubeTable.SetPolicyResponder | src/tube_manager.c:1115-1128 | sets or clears the responder bit and no other |
| TubeManager.TubeTable.SendPacket | src/tube.c:130-186 | the datagram goes out, with the command, declaration bits and chunks given |
| TubeManager.TubeTable.TubeClose | src/tube.c:397-408 | the tube is closed, in the table or not, and CLOSE goes out |
| TubeManager.TubeTable.CleanTube | src/tube_manager.c:484-505 | a running tube that is thrown out says CLOSE |
| TubeManager.TubeTable.AddTube | src/tube_manager.c:507-522 | a tube joins the table and add is raised |
| TubeManager.TubeTable.RemoveTube | src/tube_manager.c:524-540 | remove is raised and the tube leaves the table |
| TubeManager.TubeTable.Open | src/tube_manager.c:1136-1186 | a tube is opened with the given ID |
| TubeManager.TubeTable.AcceptTube | src/tube_manager.c:1016-1042 | an OPEN for an unknown ID is accepted |
| TubeManager.TubeTable.HandleCommand | src/tube_manager.c:1044-1081 | the switch over command and state |
| TubeManager.TubeTable.HandleDatagram | src/tube_manager.c:991-1081 | one turn of the receive loop from bytes to the new state; what cannot be parsed changes nothing |
| TubeManager.Fleet.Deliver | src/tube_manager.c:991-1081 | of any number of managers on the heap, one receives a datagram: the world takes the step of the model, and a buffer that cannot be parsed changes nothing |
| TubeManager.Fleet.CallOn | src/tube_manager.c:1115-1186 | the application calls one of them: the world takes the step of the model |

## Left out

* Several dispatchers that call into each other: the event model has one.
* Look-up of events by name: the dispatcher keeps the names in creation order and knows events by number; the event table itself is the hash table of the second core.
* Preparing a trigger apart from issuing it, and event pools: a moment is one allocation that succeeds or fails.
- EventDispatcher.Dispatcher.DrainQueue: speaks of drains that come to rest without a fault; a drain that never ends has no last state, and after a fault the C code follows a bad pointer. `RankedDrainRestsIff` and `RuleAbidingTriggerRests` say when a drain does come to rest.
- EventDispatcher.Dispatcher.Trigger: as for DrainQueue, the drain comes to rest without a fault.
- EventDispatcher.Dispatcher.Perform: on the heap, a call that makes the model fault is excluded, since the C code then follows a pointer to freed memory.
* Freeing of binding nodes and moments is logged, but reuse of their addresses is not modelled; identities are never used again.
* `node->bucket` is a C int: tables with more than 2^31 buckets, whose bucket numbers it cannot hold, are modelled as if it could.
- HashTable.HTable.constructor: creation with the memory it needs; the two early returns when it is refused do nothing else.
- HashTable.HTable.WalkTable: walk functions may remove the node they are given; other calls back into the table are not modelled, nor are cleaners that call back into it.
* The string and integer hash functions: `hash` is a parameter.
* Wrap-around of size_t in the pool's sums and in `num * size`, calloc and strdup of a pool, and pool cleaners that free pool-owned memory.
* An allocator that hands out an address again: blocks have numbers that are never used again.
* Sockets, select, signals, timers, locks and control messages; receipt and sending are steps.
* The failure paths of opening and adding a tube, and failed sends, which count as lost packets: the ownership of the tube is not coherent there.
- TubeTheorems.ClosedStaysClosed: the public `tube_set_state` (`include/tube.h:231`) is not among the calls; an application that sets a state directly can reopen a closed tube.
- TubeManager.Fleet.Deliver: of a packet that was never sent it promises only that the managers stay well-formed; the model's network does not deliver such packets.
* Application calls made from inside tube events, and changes of a tube's ID after it was added.
* The destruction of a whole manager, which cleans every tube without raising events.
* CBOR: a body is bytes and the decoder a function; a data event carries the bytes it was decoded from.
- TubeManager.TubeTable.AddTube: a tube in the same place is cleaned right after, not before, the new one is put in its place; what is sent and raised is the same. A tube object that was added before is excluded: it was freed when it left the table, or is freed by the put that replaces it with itself, so the C code would keep a pointer to freed memory.
* Logging, error records, socket addresses, packet info, tube streams and the sample programs.
