/** Orders and the fixed policy of the restaurant scheduler: the order record,
    its lifecycle status, the five queues an OrderManager owns, and the
    selectors that turn an order type into a priority and a target queue. */
module Orders {

  datatype Option<T> = None | Some(value: T)

  /** Lifecycle stage of an order. The C++ code stores it as one of the
      strings "pending", "preparing" and "completed"; no other value is ever
      written, so the three constructors stand for those strings. */
  datatype Status = Pending | Preparing | Completed

  /** One OrderNode without its `next` link: the link is replaced by the
      order's position in the sequence of the queue that holds it. */
  datatype Order = Order(
    id: int,
    customerName: string,
    orderType: string,
    items: string,
    status: Status,
    timestamp: string,
    priority: int)

  /** The five OrderQueue members of an OrderManager. */
  datatype QueueId = DineInQueue | TakeoutQueue | DeliveryQueue | PreparingQueue | CompletedQueue

  /** The three queues new orders are placed into. */
  predicate IsIntake(q: QueueId) {
    q == DineInQueue || q == TakeoutQueue || q == DeliveryQueue
  }

  /** The queueType each queue is constructed with; these are also the names
      the single-queue status request accepts. */
  function QueueName(q: QueueId): (name: string)
    ensures IsIntake(q) <==> QueueByType(name) == q
  {
    match q
    case DineInQueue => "dine-in"
    case TakeoutQueue => "takeout"
    case DeliveryQueue => "delivery"
    case PreparingQueue => "preparing"
    case CompletedQueue => "completed"
  }

  /** The dispatch of getQueueStatus on a requested name; None stands for the
      "Invalid queue type" reply. */
  function QueueNamed(name: string): (r: Option<QueueId>)
    ensures r.Some? ==> QueueName(r.value) == name
    ensures r.None? <==> forall q :: QueueName(q) != name
  {
    if name == "dine-in" then Some(DineInQueue)
    else if name == "takeout" then Some(TakeoutQueue)
    else if name == "delivery" then Some(DeliveryQueue)
    else if name == "preparing" then Some(PreparingQueue)
    else if name == "completed" then Some(CompletedQueue)
    else None
  }

  /** Looking a queue up by name finds exactly the queue of that name. */
  lemma QueueNamedInvertsQueueName(q: QueueId, name: string)
    ensures QueueNamed(QueueName(q)) == Some(q)
    ensures QueueNamed(name) == Some(q) ==> QueueName(q) == name
  {
  }

  /** getPriority: delivery is the most urgent (1), then takeout (2); every
      other type, dine-in included, gets 3. */
  function Priority(orderType: string): (p: int)
    ensures 1 <= p <= 3
    ensures p == 1 <==> orderType == "delivery"
    ensures p == 2 <==> orderType == "takeout"
  {
    if orderType == "delivery" then 1
    else if orderType == "takeout" then 2
    else 3
  }

  /** getQueueByType: delivery and takeout orders have their own queue; every
      other type falls through to the dine-in queue. */
  function QueueByType(orderType: string): (q: QueueId)
    ensures IsIntake(q)
    ensures q == DeliveryQueue <==> orderType == "delivery"
    ensures q == TakeoutQueue <==> orderType == "takeout"
  {
    if orderType == "delivery" then DeliveryQueue
    else if orderType == "takeout" then TakeoutQueue
    else DineInQueue
  }

  /** The order-type check of the POST /api/orders handler. */
  predicate ValidOrderType(orderType: string): (ok: bool)
    ensures ok <==> QueueName(QueueByType(orderType)) == orderType
  {
    orderType == "dine-in" || orderType == "takeout" || orderType == "delivery"
  }

  /** An order type passes the handler's check exactly when it is the name of
      the queue the order is routed to; the dine-in fallback of
      getQueueByType is therefore never taken by an accepted order. */
  lemma ValidTypeNamesItsQueue(orderType: string)
    ensures ValidOrderType(orderType) <==> QueueNamed(orderType) == Some(QueueByType(orderType))
  {
  }

  /** The priority of an order type is determined by, and determines, the
      intake queue it is routed to. */
  lemma PriorityMatchesQueue(t: string, u: string)
    ensures Priority(t) == Priority(u) <==> QueueByType(t) == QueueByType(u)
    ensures Priority(t) == 3 <==> QueueByType(t) == DineInQueue
  {
  }

  /** How many orders in q carry the given id. */
  function Occurrences(q: seq<Order>, id: int): nat {
    if q == [] then 0 else (if q[0].id == id then 1 else 0) + Occurrences(q[1..], id)
  }

  lemma {:induction false} OccurrencesAppend(a: seq<Order>, b: seq<Order>, id: int)
    ensures Occurrences(a + b, id) == Occurrences(a, id) + Occurrences(b, id)
  {
    if a == [] {
      assert a + b == b;
    } else {
      assert (a + b)[1..] == a[1..] + b;
      OccurrencesAppend(a[1..], b, id);
    }
  }

  /** Every order of q counts towards its own id. */
  lemma {:induction false} OccurrencesOfMember(q: seq<Order>, i: nat)
    requires i < |q|
    ensures Occurrences(q, q[i].id) > 0
  {
    if i > 0 {
      assert q[i] == q[1..][i - 1];
      OccurrencesOfMember(q[1..], i - 1);
    }
  }

  /** The queue with the order at position i unlinked, the rest in order. */
  function RemoveAt(q: seq<Order>, i: nat): (r: seq<Order>)
    requires i < |q|
    ensures |r| == |q| - 1
    ensures forall j :: 0 <= j < i ==> r[j] == q[j]
    ensures forall j :: i <= j < |r| ==> r[j] == q[j + 1]
    ensures forall o :: o in r ==> o in q
  {
    q[..i] + q[i + 1..]
  }

  /** Unlinking one order removes exactly one occurrence of its id. */
  lemma OccurrencesRemoveAt(q: seq<Order>, i: nat, id: int)
    requires i < |q|
    ensures Occurrences(q, id) == Occurrences(RemoveAt(q, i), id) + (if q[i].id == id then 1 else 0)
  {
    var front, rest := q[..i], q[i + 1..];
    assert ([q[i]] + rest)[1..] == rest;
    assert q == front + ([q[i]] + rest);
    OccurrencesAppend(front, [q[i]] + rest, id);
    OccurrencesAppend(front, rest, id);
  }
}
