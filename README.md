# Restaurant order-dispatch scheduler, modelled in Dafny

This project models the in-memory scheduler of a restaurant order service
(`main.cpp`). Customers place orders of type delivery, takeout or dine-in.
Each order gets the next id from a counter, a priority derived from its type
(delivery 1, takeout 2, anything else 3) and the status "pending". It is
appended to the intake queue for its type. A cook asks for the next order.
The scheduler then takes the front of the first non-empty intake queue, in
the fixed order delivery, takeout, dine-in, marks it "preparing" and appends
it to the preparing queue. Completing an order by id walks the preparing
queue from the front, unlinks the first match, marks it "completed" and
appends it to the completed queue. There are two read-only reports, one for
all queues with totals and one for a single named queue. The completed queue
can be cleared.

Files and modules:

- `orders.dfy`, module `Orders`: the order record, its status, the five queue
  identities, and the `getPriority` / `getQueueByType` selectors. It also holds
  the queue-name table, the order-type check of the POST handler, and the
  id-occurrence count used to state that no order is held twice.
- `order_queue.dfy`, module `OrderQueues`: class `OrderQueue`. Its fields are
  the list (`orders`, front first) and the `count` field, which the C++ class
  keeps separately. It has `Enqueue`, `Dequeue`, `Peek`, `IsEmpty`,
  `GetCount`, the listing walk of `toJSON`, and the unlink used by
  `completeOrder`, both as written and corrected.
- `scheduler.dfy`, module `Scheduler`: the manager's state as a value (five
  sequences and the counter). Every public operation is a function from a
  state to a new state and a reply. The invariant `Consistent` says:
  - each queue holds only orders of its own status;
  - every priority is the one its type determines;
  - ids are handed out by the counter and none is held twice;
  - intake queues are in id order.

  It also holds the lemmas about all of these.
- `order_manager.dfy`, module `Manager`: class `OrderManager`. It has five
  `OrderQueue` objects and the counter, and its methods update them in place.
  Each method is proved to take exactly the step of the matching `Scheduler`
  function and to keep `Valid()`, the class invariant, which includes
  `Consistent`. `PostOrder` is the POST handler's order-type check in front of
  `PlaceOrder`.

The wall clock is a parameter: `timestamp` stands for the string
`getCurrentTimestamp` would return. Each `OrderManager` method is one atomic
step, as the mutex in the source makes it.

## Model

| member | source | states |
|---|---|---|
| `Orders.Priority` | main.cpp:137-141 | priority is 1 exactly for "delivery", 2 exactly for "takeout", 3 otherwise |
| `Orders.QueueByType` | main.cpp:143-147 | the target is always an intake queue: delivery queue exactly for "delivery", takeout queue exactly for "takeout", dine-in queue for everything else |
| `Orders.PriorityMatchesQueue` | main.cpp:137-147 | two order types share a priority iff they share an intake queue; priority 3 iff the dine-in queue |
| `Orders.QueueName` | main.cpp:151-152 | the name each queue is constructed with; an intake queue's name routes to that same queue, and the name of the preparing or completed queue never routes to that queue itself (both route to the dine-in queue, as every name other than "delivery" and "takeout" does; see `Orders.QueueByType`) |
| `Orders.QueueNamed` | main.cpp:267-275 | the queue a status request names: a found queue has that name, and None exactly when no queue has it (both directions in `QueueNamedInvertsQueueName`) |
| `Orders.ValidOrderType` | main.cpp:322 | the handler's three-name test; it holds exactly when the type names the queue it is routed to (see `ValidTypeNamesItsQueue`) |
| `Orders.QueueNamedInvertsQueueName` | main.cpp:264-276 | looking up a queue's name gives that queue, and a name that is found is that queue's name |
| `Orders.ValidTypeNamesItsQueue` | main.cpp:322-326 | an order type passes the handler's check iff it is the name of the queue it is routed to |
| `Orders.RemoveAt` | main.cpp:228-233 | unlinking position i keeps the orders before i and shifts the rest down by one, adding nothing |
| `OrderQueues.OrderQueue.constructor` | main.cpp:41 | a new queue is empty with count 0 and the given name |
| `OrderQueues.OrderQueue.Enqueue` | main.cpp:43-51 | the order is appended at the rear and count goes up by one |
| `OrderQueues.OrderQueue.Dequeue` | main.cpp:53-66 | an empty queue returns None and is unchanged; otherwise the front is returned, the rest keep their order and count drops by one |
| `OrderQueues.OrderQueue.Peek` | main.cpp:68-70 | None iff the queue is empty, else the front order |
| `OrderQueues.OrderQueue.IsEmpty` | main.cpp:72-74 | true iff there are no orders (iff count is 0 while count is in step) |
| `OrderQueues.OrderQueue.GetCount` | main.cpp:76-78 | the count field, which is the number of orders while count is in step |
| `OrderQueues.OrderQueue.ToJson` | main.cpp:80-104 | the listing holds the queue's name, its count and exactly its orders, front to rear |
| `OrderQueues.OrderQueue.Unlink` | main.cpp:231-233 | the order at the position is unlinked, the rest keep their order, count drops by one (corrected; see Findings) |
| `OrderQueues.Spliced` | main.cpp:228-233 | corrected unlink: name kept, count one less, one order fewer, order of the others kept |
| `OrderQueues.SplicedAsWritten` | main.cpp:229-233 | unlink as written: same orders as the corrected one, but count drops only for the front |
| `OrderQueues.SplicedAsWrittenMiscounts` | main.cpp:229-233 | as written, unlinking a non-front order leaves count one above the number of orders; at the front it agrees with the corrected unlink |
| `Scheduler.InitConsistent` | main.cpp:150-152 | the freshly constructed manager satisfies the invariant |
| `Scheduler.Place` | main.cpp:154-174 | placeOrder as a step: the counter moves on by one and is the new id, one more order is pending, preparing and completed are untouched; the routing is stated by `PlaceRoutesNewOrder` |
| `Scheduler.Post` | main.cpp:322-332 | the POST handler after parsing: rejected exactly when the type fails the three-name test, and then nothing changes; otherwise the new id is counter+1 and the counter moves to it |
| `Scheduler.PostAll` | main.cpp:322-332 | a run of POST calls: at most one id per request, and the counter moves on by exactly the number of ids assigned; `PostAllAssignsConsecutiveIds` gives the ids |
| `Scheduler.PlaceRoutesNewOrder` | main.cpp:154-174 | placeOrder takes id counter+1 and appends a pending order with its type's priority to its type's queue; the reply's position is that queue's new length; other queues are untouched |
| `Scheduler.PlacePreservesConsistent` | main.cpp:157-163 | placing an order keeps the invariant: the new id is held once and is larger than every id in its queue |
| `Scheduler.RejectedOrderConsumesNoId` | main.cpp:322-328 | a rejected order type changes nothing, so the next request gets the same reply and id as if the rejected one had not been made |
| `Scheduler.PostAllAssignsConsecutiveIds` | main.cpp:159 | over any run of POST calls the accepted orders get ids counter+1, counter+2, ... with no gaps, one per accepted request |
| `Scheduler.PostAllIdsIncrease` | main.cpp:322-328 | ids assigned over any run of POST calls are strictly increasing across all order types |
| `Scheduler.Serve` | main.cpp:190-193 | the dispatched order is the given order with only its status changed, to preparing (customer, type, items, timestamp and priority kept), and it joins the rear of preparing; each intake queue, completed and the counter are as the caller left them |
| `Scheduler.Next` | main.cpp:176-207 | getNextOrder as a step: "empty" exactly when nothing is pending; otherwise the first pending order in delivery, takeout, dine-in order, marked preparing; counter and completed untouched; characterised by `NextMovesOneOrder` and `NextServesMostUrgentOldest` |
| `Scheduler.NextMovesOneOrder` | main.cpp:182-193 | getNextOrder moves exactly one order, from the first non-empty intake queue (delivery, else takeout, else dine-in) to the rear of preparing, leaving the other two intake queues as they were, and no id is gained or lost; it answers "empty" iff nothing is pending and then changes nothing |
| `Scheduler.NextServesMostUrgentOldest` | main.cpp:179-188 | the dispatched order is a pending order with only its status changed to preparing; every pending order has a larger priority number, or the same one and an id no smaller |
| `Scheduler.DeliveryStarvesOthers` | main.cpp:182-183 | while delivery orders remain, k dispatches serve the first k delivery orders in FIFO order and leave takeout and dine-in untouched |
| `Scheduler.OnePerTypeScenario` | main.cpp:179-204 | one delivery, one takeout and one dine-in order are served in that order, then "empty" |
| `Scheduler.NextPreservesConsistent` | main.cpp:176-207 | dispatch keeps the invariant |
| `Scheduler.FirstIndexOf` | main.cpp:213-219 | the scan finds the first position holding the id, or reports that no position holds it |
| `Scheduler.Complete` | main.cpp:209-244 | completeOrder as a step, with the corrected unlink (see Findings): not found exactly when no preparing order has the id, and then nothing changes; on success one more completed order, carrying the id, at the rear; each of the three intake queues and the counter untouched; characterised by `CompleteSucceedsIff` |
| `Scheduler.CompleteSucceedsIff` | main.cpp:209-244 | completeOrder succeeds iff some preparing order has the id; then the first such order is unlinked with the rest kept in order and appended, completed, to completed; otherwise nothing changes; intake queues and counter are never touched |
| `Scheduler.CompleteMovesOneOrder` | main.cpp:228-237 | completion moves exactly one order from preparing to completed and no id is gained or lost |
| `Scheduler.CompletePreservesConsistent` | main.cpp:228-237 | completion keeps the invariant |
| `Scheduler.CompleteTwiceFails` | main.cpp:212-226 | after a successful completion, completing the same id again reports not found |
| `Scheduler.ClearDone` | main.cpp:278-285 | clearCompleted as a step: completed becomes empty; each intake queue, preparing and the counter are kept; no id is held more often than before |
| `Scheduler.ClearDoneEmptiesCompletedOnly` | main.cpp:278-285 | clearing empties completed and leaves the other four queues and the counter unchanged |
| `Scheduler.ClearDonePreservesConsistent` | main.cpp:278-285 | clearing keeps the invariant |
| `Scheduler.Report` | main.cpp:246-262 | getAllQueues: every one of the five snapshots carries its queue's name, exactly its orders front to rear, and a count equal to their number (corrected; see Findings); totalPending is the sum of the three intake counts and the number of pending orders, totalPreparing and totalCompleted are the counts of their queues |
| `Scheduler.QueueStatus` | main.cpp:264-276 | getQueueStatus: None exactly for a name no queue has; otherwise exactly the snapshot of the queue of that name (its name, its orders front to rear), count in step with its orders (corrected; see Findings: as written, the preparing queue's count can be stale) |
| `Scheduler.QueueStatusAcceptsQueueNames` | main.cpp:264-276 | the single-queue report answers exactly the five queue names, each with that queue's snapshot, and reports an invalid name otherwise |
| `Scheduler.StatsFollowOrders` | main.cpp:256-259 | after a dispatch one order has moved from pending to preparing in the totals; after a completion one from preparing to completed (corrected; see Findings: as written, totalPreparing does not drop after a non-front completion); a failed call leaves the report unchanged; clearing zeroes totalCompleted |
| `Manager.OrderManager.constructor` | main.cpp:150-152 | the manager starts with five empty queues and counter 0, and is valid |
| `Manager.OrderManager.QueueOf` | main.cpp:143-147 | the queue object returned is the one of the type's intake queue |
| `Manager.OrderManager.PlaceOrder` | main.cpp:154-174 | takes exactly the placeOrder step (`Scheduler.Place`) and keeps the class invariant |
| `Manager.OrderManager.GetNextOrder` | main.cpp:176-207 | takes exactly the strict-priority dispatch step (`Scheduler.Next`) and keeps the class invariant |
| `Manager.OrderManager.CompleteOrder` | main.cpp:209-244 | the prev/current walk finds the first match; the method takes exactly the completion step (`Scheduler.Complete`) and keeps the class invariant, including the preparing queue's count being in step (corrected; see Findings: a non-front unlink goes through `OrderQueue.Unlink`, which lowers the count the source leaves unchanged) |
| `Manager.OrderManager.GetAllQueues` | main.cpp:246-262 | returns the snapshots of all five queues and the three totals of the current state, changing nothing |
| `Manager.OrderManager.GetQueueStatus` | main.cpp:264-276 | returns the named queue's snapshot or the invalid-name reply, changing nothing |
| `Manager.OrderManager.ClearCompleted` | main.cpp:278-285 | dequeues until completed is empty; the other queues and the counter are unchanged |
| `Manager.PostOrder` | main.cpp:322-332 | an invalid order type is rejected before the manager is touched; otherwise the order is placed |

## Left out

- HTTP routing, request parsing, response codes, CORS headers and server start-up (main.cpp:289-397). These are the web framework's job. Of the handlers, only the order-type check of the POST handler is modelled.
- The missing-field check of the POST handler (main.cpp:312-316). It is a property of the parsed JSON body, and the JSON layer is not part of this model. `Request` always carries the three fields.
- JSON formatting. Replies are datatypes. `Dispatched` carries the whole order, while the C++ reply lists only its id, customer, type, items and status. Fixed message strings are dropped.
- The mutex. Every `OrderManager` method is treated as one atomic step.
- `getCurrentTimestamp` reads the wall clock. The timestamp is passed in as a string.
- Raw pointers, `new`/`delete` and the queue destructor. Each queue owns a sequence of order values. Clearing discards orders by emptying the sequence.
- `Manager.OrderManager.PlaceOrder`: ids and counts are unbounded integers. Incrementing the C++ `int` counter past 2^31 - 1 is signed overflow, which is undefined behaviour in C++; the model gives no meaning to that case and assumes fewer orders are ever placed.
- `OrderQueues.SplicedAsWritten`: models only the count left unchanged by the non-front unlink. The stale `rear` pointer (see Findings) and the aliasing it causes are not modelled, because the queues here are sequences, not linked nodes.
- The status strings "pending", "preparing" and "completed" are the constructors of `Status`. The code names the last two stages "preparing" and "completed", and the model follows the code.

## Findings

| source | as written | input that shows it | evidently intended | confidence | as-written member | corrected member |
|---|---|---|---|---|---|---|
| main.cpp:231-233 | unlinking a non-front order from the preparing queue sets `prev->next = current->next` only: `preparingQueue.count` is not decremented, and if the order was the rear, `rear` keeps pointing at it | place two orders and dispatch both (preparing holds ids 1, 2), then completeOrder(2): the preparing list holds one order but its count stays 2, so getAllQueues reports totalPreparing 2; `rear` still points at order 2, now in the completed list, so the next dispatched order is linked behind it and is lost from the preparing list | the count drops by one and the rear moves back to `prev`, as `dequeue` does for the front | not executed; high (read directly from the code) | `OrderQueues.SplicedAsWritten`, `OrderQueues.SplicedAsWrittenMiscounts` | `OrderQueues.Spliced`, `OrderQueues.OrderQueue.Unlink`, `Manager.OrderManager.CompleteOrder` |
