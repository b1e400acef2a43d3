/** OrderManager: five OrderQueue objects and the id counter, updated in
    place. Each public method is one atomic step (the C++ code holds one
    mutex for its whole body) and is proved to take the step that the
    Scheduler functions describe. */
module Manager {
  import opened Orders
  import opened OrderQueues
  import opened Scheduler

  class OrderManager {
    const dineInQueue: OrderQueue
    const takeoutQueue: OrderQueue
    const deliveryQueue: OrderQueue
    const preparingQueue: OrderQueue
    const completedQueue: OrderQueue
    var orderIdCounter: int

    /** The five queues are five distinct objects, each named for its role,
        each with its count in step with its orders, and together they keep
        the lifecycle and identity invariant. */
    ghost predicate Valid()
      reads this, dineInQueue, takeoutQueue, deliveryQueue, preparingQueue, completedQueue
    {
      && dineInQueue != takeoutQueue && dineInQueue != deliveryQueue
      && dineInQueue != preparingQueue && dineInQueue != completedQueue
      && takeoutQueue != deliveryQueue && takeoutQueue != preparingQueue
      && takeoutQueue != completedQueue && deliveryQueue != preparingQueue
      && deliveryQueue != completedQueue && preparingQueue != completedQueue
      && dineInQueue.queueType == QueueName(DineInQueue)
      && takeoutQueue.queueType == QueueName(TakeoutQueue)
      && deliveryQueue.queueType == QueueName(DeliveryQueue)
      && preparingQueue.queueType == QueueName(PreparingQueue)
      && completedQueue.queueType == QueueName(CompletedQueue)
      && dineInQueue.Valid() && takeoutQueue.Valid() && deliveryQueue.Valid()
      && preparingQueue.Valid() && completedQueue.Valid()
      && Consistent(Model())
    }

    /** The abstract state: the orders of each queue, front first, and the
        counter. */
    ghost function Model(): State
      reads this, dineInQueue, takeoutQueue, deliveryQueue, preparingQueue, completedQueue
    {
      State(dineInQueue.orders, takeoutQueue.orders, deliveryQueue.orders,
            preparingQueue.orders, completedQueue.orders, orderIdCounter)
    }

    constructor ()
      ensures Valid() && Model() == Init()
    {
      dineInQueue := new OrderQueue("dine-in");
      takeoutQueue := new OrderQueue("takeout");
      deliveryQueue := new OrderQueue("delivery");
      preparingQueue := new OrderQueue("preparing");
      completedQueue := new OrderQueue("completed");
      orderIdCounter := 0;
      new;
      InitConsistent();
    }

    /** getQueueByType: the intake queue object an order type is routed to. */
    function QueueOf(orderType: string): (queue: OrderQueue)
      ensures QueueByType(orderType) == DeliveryQueue ==> queue == deliveryQueue
      ensures QueueByType(orderType) == TakeoutQueue ==> queue == takeoutQueue
      ensures QueueByType(orderType) == DineInQueue ==> queue == dineInQueue
    {
      if orderType == "delivery" then deliveryQueue
      else if orderType == "takeout" then takeoutQueue
      else dineInQueue
    }

    method PlaceOrder(customerName: string, orderType: string, items: string, timestamp: string)
      returns (placed: Placed)
      requires Valid()
      modifies this, dineInQueue, takeoutQueue, deliveryQueue
      ensures Valid()
      ensures (Model(), placed) == Place(old(Model()), customerName, orderType, items, timestamp)
    {
      ghost var before := Model();
      var priority := Priority(orderType);
      orderIdCounter := orderIdCounter + 1;
      var order := Order(orderIdCounter, customerName, orderType, items, Pending, timestamp, priority);
      var target := QueueOf(orderType);
      target.Enqueue(order);
      var position := target.GetCount();
      placed := Placed(order.id, customerName, orderType, position);
      PlacePreservesConsistent(before, customerName, orderType, items, timestamp);
    }

    /** Strict priority: delivery, then takeout, then dine-in. */
    method GetNextOrder() returns (dispatch: Dispatch)
      requires Valid()
      modifies dineInQueue, takeoutQueue, deliveryQueue, preparingQueue
      ensures Valid()
      ensures (Model(), dispatch) == Next(old(Model()))
    {
      ghost var before := Model();
      var order: Option<Order> := None;
      var empty := deliveryQueue.IsEmpty();
      if !empty {
        order := deliveryQueue.Dequeue();
      } else {
        empty := takeoutQueue.IsEmpty();
        if !empty {
          order := takeoutQueue.Dequeue();
        } else {
          empty := dineInQueue.IsEmpty();
          if !empty {
            order := dineInQueue.Dequeue();
          }
        }
      }
      if order.Some? {
        var prepared := order.value.(status := Preparing);
        preparingQueue.Enqueue(prepared);
        dispatch := Dispatched(prepared);
      } else {
        dispatch := NoPendingOrders;
      }
      NextPreservesConsistent(before);
    }

    /** Walks the preparing queue from the front for the first order with the
        id, unlinks it and appends it, completed, to the completed queue. */
    method CompleteOrder(orderId: int) returns (completion: Completion)
      requires Valid()
      modifies preparingQueue, completedQueue
      ensures Valid()
      ensures (Model(), completion) == Complete(old(Model()), orderId)
    {
      ghost var before := Model();
      // `current` is the order at `position`; `prev` is the one before it.
      var position := 0;
      while position < |preparingQueue.orders| && preparingQueue.orders[position].id != orderId
        invariant 0 <= position <= |preparingQueue.orders|
        invariant forall j :: 0 <= j < position ==> preparingQueue.orders[j].id != orderId
      {
        position := position + 1;
      }
      if position == |preparingQueue.orders| {
        assert FirstIndexOf(before.preparing, orderId) == None;
        return NotInPreparing;
      }
      assert FirstIndexOf(before.preparing, orderId) == Some(position);
      var current := preparingQueue.orders[position];
      if position == 0 {
        var _ := preparingQueue.Dequeue();
        assert preparingQueue.orders == RemoveAt(before.preparing, 0);
      } else {
        preparingQueue.Unlink(position);
      }
      completedQueue.Enqueue(current.(status := Completed));
      completion := CompletedOk(orderId);
      CompletePreservesConsistent(before, orderId);
    }

    /** Takes toJSON of every queue and the three totals from the counts. */
    method GetAllQueues() returns (report: AllQueues)
      requires Valid()
      ensures report == Report(Model())
    {
      var dineIn := dineInQueue.ToJson();
      var takeout := takeoutQueue.ToJson();
      var delivery := deliveryQueue.ToJson();
      var preparing := preparingQueue.ToJson();
      var completed := completedQueue.ToJson();
      var dineInCount := dineInQueue.GetCount();
      var takeoutCount := takeoutQueue.GetCount();
      var deliveryCount := deliveryQueue.GetCount();
      var preparingCount := preparingQueue.GetCount();
      var completedCount := completedQueue.GetCount();
      report := AllQueues(dineIn, takeout, delivery, preparing, completed,
                          dineInCount + takeoutCount + deliveryCount, preparingCount, completedCount);
    }

    /** toJSON of the named queue, or None for an unknown name. */
    method GetQueueStatus(queueType: string) returns (status: Option<QueueSnapshot>)
      requires Valid()
      ensures status == QueueStatus(Model(), queueType)
    {
      var snapshot: QueueSnapshot;
      if queueType == "dine-in" {
        snapshot := dineInQueue.ToJson();
      } else if queueType == "takeout" {
        snapshot := takeoutQueue.ToJson();
      } else if queueType == "delivery" {
        snapshot := deliveryQueue.ToJson();
      } else if queueType == "preparing" {
        snapshot := preparingQueue.ToJson();
      } else if queueType == "completed" {
        snapshot := completedQueue.ToJson();
      } else {
        return None;
      }
      status := Some(snapshot);
    }

    /** Dequeues from the completed queue until it is empty. */
    method ClearCompleted()
      requires Valid()
      modifies completedQueue
      ensures Valid()
      ensures Model() == ClearDone(old(Model()))
    {
      ghost var before := Model();
      var empty := completedQueue.IsEmpty();
      while !empty
        invariant completedQueue.Valid()
        invariant empty <==> completedQueue.orders == []
        decreases |completedQueue.orders|
      {
        var _ := completedQueue.Dequeue();
        empty := completedQueue.IsEmpty();
      }
      ClearDonePreservesConsistent(before);
    }
  }

  /** The POST /api/orders handler after its body has been read: an order
      type other than dine-in, takeout and delivery is rejected before the
      manager is touched; anything else is placed. */
  method PostOrder(manager: OrderManager, request: Request) returns (posted: Posted)
    requires manager.Valid()
    modifies manager, manager.dineInQueue, manager.takeoutQueue, manager.deliveryQueue
    ensures manager.Valid()
    ensures (manager.Model(), posted) == Post(old(manager.Model()), request)
  {
    var orderType := request.orderType;
    if orderType != "dine-in" && orderType != "takeout" && orderType != "delivery" {
      return InvalidOrderType;
    }
    var placed := manager.PlaceOrder(request.customerName, orderType, request.items, request.timestamp);
    posted := Created(placed);
  }
}
