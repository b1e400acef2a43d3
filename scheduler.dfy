/** The OrderManager's behaviour as functions over its abstract state: the five
    queues as sequences (front first) and the id counter. Each public
    operation is one atomic step from a state to a state and a reply. */
module Scheduler {
  import opened Orders
  import opened OrderQueues

  datatype State = State(
    dineIn: seq<Order>,
    takeout: seq<Order>,
    delivery: seq<Order>,
    preparing: seq<Order>,
    completed: seq<Order>,
    counter: int)

  /** A freshly constructed OrderManager: five empty queues, counter 0. */
  function Init(): State {
    State([], [], [], [], [], 0)
  }

  function Queue(s: State, q: QueueId): seq<Order> {
    match q
    case DineInQueue => s.dineIn
    case TakeoutQueue => s.takeout
    case DeliveryQueue => s.delivery
    case PreparingQueue => s.preparing
    case CompletedQueue => s.completed
  }

  /** `s` with `order` appended at the rear of queue `q`. */
  function Enqueued(s: State, q: QueueId, order: Order): State {
    match q
    case DineInQueue => s.(dineIn := s.dineIn + [order])
    case TakeoutQueue => s.(takeout := s.takeout + [order])
    case DeliveryQueue => s.(delivery := s.delivery + [order])
    case PreparingQueue => s.(preparing := s.preparing + [order])
    case CompletedQueue => s.(completed := s.completed + [order])
  }

  /** The orders waiting to be prepared, in the order getNextOrder scans them. */
  function PendingOrders(s: State): seq<Order> {
    s.delivery + s.takeout + s.dineIn
  }

  /** How many orders, over all five queues, carry the given id. */
  function Held(s: State, id: int): nat {
    Occurrences(s.dineIn, id) + Occurrences(s.takeout, id) + Occurrences(s.delivery, id)
      + Occurrences(s.preparing, id) + Occurrences(s.completed, id)
  }

  // ---------------------------------------------------------------------------
  // The invariant every reachable state keeps

  /** Every order in an intake queue is pending, belongs to that queue by its
      type and carries the priority of its type. */
  ghost predicate PendingIn(q: seq<Order>, queue: QueueId) {
    forall o :: o in q ==> o.status == Pending && QueueByType(o.orderType) == queue
  }

  ghost predicate AllHaveStatus(q: seq<Order>, status: Status) {
    forall o :: o in q ==> o.status == status
  }

  ghost predicate PrioritiesFixed(q: seq<Order>) {
    forall o :: o in q ==> o.priority == Priority(o.orderType)
  }

  /** Older orders (smaller ids) are nearer the front. */
  ghost predicate IdsIncreasing(q: seq<Order>) {
    forall i, j :: 0 <= i < j < |q| ==> q[i].id < q[j].id
  }

  /** The lifecycle and identity invariant: each queue holds only orders of
      its own status, every priority is the one its type determines, every
      id was handed out by the counter, no id is held twice (so no order is
      in two queues), and each intake queue is in placement order. */
  ghost predicate Consistent(s: State) {
    && IntakeOk(s.dineIn, DineInQueue)
    && IntakeOk(s.takeout, TakeoutQueue)
    && IntakeOk(s.delivery, DeliveryQueue)
    && StageOk(s.preparing, Preparing)
    && StageOk(s.completed, Completed)
    && IdsOk(s)
  }

  /** An intake queue holds pending orders of its own types, with their
      types' priorities, in placement order. */
  ghost predicate IntakeOk(q: seq<Order>, queue: QueueId) {
    PendingIn(q, queue) && PrioritiesFixed(q) && IdsIncreasing(q)
  }

  /** The preparing or completed queue holds orders of that status only. */
  ghost predicate StageOk(q: seq<Order>, status: Status) {
    AllHaveStatus(q, status) && PrioritiesFixed(q)
  }

  /** Every id held was handed out by the counter, and none is held twice. */
  ghost predicate IdsOk(s: State) {
    && s.counter >= 0
    && (forall id :: Held(s, id) > 0 ==> 1 <= id <= s.counter)
    && (forall id :: Held(s, id) <= 1)
  }

  lemma InitConsistent()
    ensures Consistent(Init())
  {
  }

  // ---------------------------------------------------------------------------
  // placeOrder

  /** The success reply of placeOrder. */
  datatype Placed = Placed(orderId: int, customerName: string, orderType: string, queuePosition: int)

  /** placeOrder: the next id, a pending order of the type's priority at the
      rear of the type's queue; see PlaceRoutesNewOrder. */
  function Place(s: State, customerName: string, orderType: string, items: string, timestamp: string): (r: (State, Placed))
    ensures r.0.counter == s.counter + 1 && r.1.orderId == r.0.counter
    ensures |PendingOrders(r.0)| == |PendingOrders(s)| + 1
    ensures r.0.preparing == s.preparing && r.0.completed == s.completed
  {
    var order := Order(s.counter + 1, customerName, orderType, items, Pending, timestamp, Priority(orderType));
    var target := QueueByType(orderType);
    var s' := Enqueued(s.(counter := s.counter + 1), target, order);
    (s', Placed(order.id, customerName, orderType, |Queue(s', target)|))
  }

  /** placeOrder takes the next id, appends a pending order of the type's
      priority at the rear of the type's queue, reports that queue's new
      length as the position, and leaves every other queue alone. */
  lemma PlaceRoutesNewOrder(s: State, customerName: string, orderType: string, items: string, timestamp: string)
    ensures var (s', r) := Place(s, customerName, orderType, items, timestamp);
      var target := QueueByType(orderType);
      && s'.counter == s.counter + 1 && r.orderId == s'.counter
      && Queue(s', target) == Queue(s, target) + [Order(r.orderId, customerName, orderType, items, Pending, timestamp, Priority(orderType))]
      && r.queuePosition == |Queue(s', target)|
      && (forall q :: q != target ==> Queue(s', q) == Queue(s, q))
  {
  }

  lemma PlacePreservesConsistent(s: State, customerName: string, orderType: string, items: string, timestamp: string)
    requires Consistent(s)
    ensures Consistent(Place(s, customerName, orderType, items, timestamp).0)
  {
    var order := Order(s.counter + 1, customerName, orderType, items, Pending, timestamp, Priority(orderType));
    var s' := Place(s, customerName, orderType, items, timestamp).0;
    match QueueByType(orderType)
    case DeliveryQueue =>
      assert s' == s.(delivery := s.delivery + [order], counter := s.counter + 1);
      HeldIdsAtMostCounter(s, s.delivery);
      AppendNewestKeepsIntake(s.delivery, DeliveryQueue, order);
      AppendNewestKeepsIds(s, s', s.delivery, order);
    case TakeoutQueue =>
      assert s' == s.(takeout := s.takeout + [order], counter := s.counter + 1);
      HeldIdsAtMostCounter(s, s.takeout);
      AppendNewestKeepsIntake(s.takeout, TakeoutQueue, order);
      AppendNewestKeepsIds(s, s', s.takeout, order);
    case DineInQueue =>
      assert s' == s.(dineIn := s.dineIn + [order], counter := s.counter + 1);
      HeldIdsAtMostCounter(s, s.dineIn);
      AppendNewestKeepsIntake(s.dineIn, DineInQueue, order);
      AppendNewestKeepsIds(s, s', s.dineIn, order);
  }

  /** When one queue of s grows by an order whose id is the next counter
      value, and the counter moves on to it, every id is still held at most
      once and none exceeds the counter. */
  lemma AppendNewestKeepsIds(s: State, s': State, q: seq<Order>, order: Order)
    requires IdsOk(s) && s'.counter == s.counter + 1 && order.id == s'.counter
    requires forall id :: Held(s', id) == Held(s, id) - Occurrences(q, id) + Occurrences(q + [order], id)
    ensures IdsOk(s')
  {
    forall id
      ensures Occurrences(q + [order], id) == Occurrences(q, id) + (if id == order.id then 1 else 0)
    {
      OccurrencesAppend(q, [order], id);
      assert [order][1..] == [];
    }
  }

  /** Every order of a queue held by s has an id the counter has reached. */
  lemma HeldIdsAtMostCounter(s: State, q: seq<Order>)
    requires IdsOk(s)
    requires forall id :: Occurrences(q, id) <= Held(s, id)
    ensures forall i :: 0 <= i < |q| ==> q[i].id <= s.counter
  {
    forall i | 0 <= i < |q|
      ensures q[i].id <= s.counter
    {
      OccurrencesOfMember(q, i);
      assert Held(s, q[i].id) > 0;
    }
  }

  /** A new pending order with an id above all others may join the rear of
      its own intake queue without breaking that queue's part of the
      invariant. */
  lemma AppendNewestKeepsIntake(q: seq<Order>, queue: QueueId, order: Order)
    requires IntakeOk(q, queue)
    requires order.status == Pending && QueueByType(order.orderType) == queue
    requires order.priority == Priority(order.orderType)
    requires forall i :: 0 <= i < |q| ==> q[i].id < order.id
    ensures IntakeOk(q + [order], queue)
  {
  }

  // ---------------------------------------------------------------------------
  // The POST /api/orders handler: the order-type check, then placeOrder

  /** One POST /api/orders call: the three body fields, and the clock reading
      placeOrder takes when it runs. */
  datatype Request = Request(customerName: string, orderType: string, items: string, timestamp: string)

  datatype Posted = Created(placed: Placed) | InvalidOrderType

  /** The POST handler: the order-type check, then placeOrder. */
  function Post(s: State, request: Request): (r: (State, Posted))
    ensures r.1 == InvalidOrderType <==> !ValidOrderType(request.orderType)
    ensures r.1 == InvalidOrderType ==> r.0 == s
    ensures r.1.Created? ==> r.1.placed.orderId == s.counter + 1 == r.0.counter
  {
    if !ValidOrderType(request.orderType) then (s, InvalidOrderType)
    else
      var (s', placed) := Place(s, request.customerName, request.orderType, request.items, request.timestamp);
      (s', Created(placed))
  }

  /** A rejected order changes nothing, so it consumes no id: whatever comes
      next is answered exactly as if the rejected call had not been made. */
  lemma RejectedOrderConsumesNoId(s: State, rejected: Request, next: Request)
    requires !ValidOrderType(rejected.orderType)
    ensures Post(s, rejected) == (s, InvalidOrderType)
    ensures Post(Post(s, rejected).0, next) == Post(s, next)
  {
  }

  /** A run of POST calls: the final state and the ids assigned, in order. */
  function PostAll(s: State, requests: seq<Request>): (r: (State, seq<int>))
    ensures |r.1| <= |requests|
    ensures r.0.counter == s.counter + |r.1|
    decreases |requests|
  {
    if requests == [] then (s, [])
    else
      var (s1, reply) := Post(s, requests[0]);
      var (s2, ids) := PostAll(s1, requests[1..]);
      (s2, (if reply.Created? then [reply.placed.orderId] else []) + ids)
  }

  function AcceptedCount(requests: seq<Request>): nat {
    if requests == [] then 0
    else (if ValidOrderType(requests[0].orderType) then 1 else 0) + AcceptedCount(requests[1..])
  }

  /** Over any run of POST calls, the accepted orders receive the ids
      counter+1, counter+2, ... in order: ids start after the counter, are
      strictly increasing across all order types, and rejected calls leave
      no gap. */
  lemma {:induction false} PostAllAssignsConsecutiveIds(s: State, requests: seq<Request>)
    ensures var (s', ids) := PostAll(s, requests);
      && |ids| == AcceptedCount(requests)
      && s'.counter == s.counter + |ids|
      && (forall i :: 0 <= i < |ids| ==> ids[i] == s.counter + 1 + i)
    decreases |requests|
  {
    if requests != [] {
      var (s1, reply) := Post(s, requests[0]);
      PostAllAssignsConsecutiveIds(s1, requests[1..]);
    }
  }

  /** Hence the ids of any run of POST calls are strictly increasing. */
  lemma PostAllIdsIncrease(s: State, requests: seq<Request>)
    ensures var ids := PostAll(s, requests).1;
      forall i, j :: 0 <= i < j < |ids| ==> s.counter < ids[i] < ids[j]
  {
    PostAllAssignsConsecutiveIds(s, requests);
  }

  // ---------------------------------------------------------------------------
  // getNextOrder

  datatype Dispatch = Dispatched(order: Order) | NoPendingOrders

  /** Marks `order` as preparing and appends it to the preparing queue. */
  function Serve(s: State, order: Order): (r: (State, Dispatch))
    ensures r.1.Dispatched? && r.1.order.id == order.id && r.1.order.status == Preparing
    ensures r.1.order == order.(status := Preparing)
    ensures r.0.preparing == s.preparing + [r.1.order]
    ensures r.0.delivery == s.delivery && r.0.takeout == s.takeout && r.0.dineIn == s.dineIn
    ensures r.0.completed == s.completed && r.0.counter == s.counter
  {
    var prepared := order.(status := Preparing);
    (s.(preparing := s.preparing + [prepared]), Dispatched(prepared))
  }

  /** Strict priority: the front of the first non-empty queue among delivery,
      takeout and dine-in. */
  function Next(s: State): (r: (State, Dispatch))
    ensures r.1 == NoPendingOrders <==> PendingOrders(s) == []
    ensures r.1.Dispatched? ==> r.1.order == PendingOrders(s)[0].(status := Preparing)
    ensures r.0.counter == s.counter && r.0.completed == s.completed
  {
    if s.delivery != [] then Serve(s.(delivery := s.delivery[1..]), s.delivery[0])
    else if s.takeout != [] then Serve(s.(takeout := s.takeout[1..]), s.takeout[0])
    else if s.dineIn != [] then Serve(s.(dineIn := s.dineIn[1..]), s.dineIn[0])
    else (s, NoPendingOrders)
  }

  /** Moving the front of one queue to the rear of another keeps every
      id's number of occurrences over the two. */
  lemma MoveFrontKeepsIds(source: seq<Order>, target: seq<Order>, moved: Order, id: int)
    requires source != [] && moved.id == source[0].id
    ensures Occurrences(source[1..], id) + Occurrences(target + [moved], id)
         == Occurrences(source, id) + Occurrences(target, id)
  {
    OccurrencesAppend(target, [moved], id);
    assert [moved][1..] == [];
  }

  /** Dispatch moves exactly one order, from an intake queue to the rear of
      the preparing queue, or nothing when no order is pending. */
  lemma NextMovesOneOrder(s: State)
    ensures var (s', r) := Next(s);
      && (forall id :: Held(s', id) == Held(s, id))
      && s'.counter == s.counter && s'.completed == s.completed
      && (r == NoPendingOrders <==> PendingOrders(s) == [])
      && (r == NoPendingOrders ==> s' == s)
      && (r.Dispatched? ==> s'.preparing == s.preparing + [r.order] && |PendingOrders(s')| == |PendingOrders(s)| - 1)
      && (s.delivery != [] ==>
            && s'.delivery == s.delivery[1..] && s'.takeout == s.takeout && s'.dineIn == s.dineIn)
      && (s.delivery == [] && s.takeout != [] ==>
            && s'.delivery == s.delivery && s'.takeout == s.takeout[1..] && s'.dineIn == s.dineIn)
      && (s.delivery == [] && s.takeout == [] && s.dineIn != [] ==>
            && s'.delivery == s.delivery && s'.takeout == s.takeout && s'.dineIn == s.dineIn[1..])
  {
    var (s', r) := Next(s);
    forall id
      ensures Held(s', id) == Held(s, id)
    {
      if s.delivery != [] {
        MoveFrontKeepsIds(s.delivery, s.preparing, r.order, id);
      } else if s.takeout != [] {
        MoveFrontKeepsIds(s.takeout, s.preparing, r.order, id);
      } else if s.dineIn != [] {
        MoveFrontKeepsIds(s.dineIn, s.preparing, r.order, id);
      }
    }
  }

  /** The order getNextOrder hands out is the most urgent pending order, and
      the oldest among those equally urgent; it is that pending order with
      only its status changed to preparing. */
  lemma NextServesMostUrgentOldest(s: State)
    requires Consistent(s)
    ensures Next(s).1.Dispatched? ==>
      var o := Next(s).1.order;
      && o.status == Preparing
      && o.(status := Pending) in PendingOrders(s)
      && forall p :: p in PendingOrders(s) ==>
           o.priority < p.priority || (o.priority == p.priority && o.id <= p.id)
  {
    if s.delivery != [] {
      FrontServedFirst(s.delivery, DeliveryQueue);
    } else if s.takeout != [] {
      FrontServedFirst(s.takeout, TakeoutQueue);
    } else if s.dineIn != [] {
      FrontServedFirst(s.dineIn, DineInQueue);
    }
  }

  /** Within one intake queue every order has the front's priority and an id
      no smaller than the front's. */
  lemma FrontServedFirst(q: seq<Order>, queue: QueueId)
    requires q != [] && PendingIn(q, queue) && PrioritiesFixed(q) && IdsIncreasing(q)
    ensures forall p :: p in q ==> p.priority == q[0].priority && q[0].id <= p.id
  {
    forall p | p in q
      ensures p.priority == q[0].priority && q[0].id <= p.id
    {
      var j :| 0 <= j < |q| && q[j] == p;
      PriorityMatchesQueue(p.orderType, q[0].orderType);
    }
  }

  /** One order of each type, placed delivery, takeout, dine-in: four
      dispatches serve ids 1, 2 and 3 in that order and then find nothing. */
  lemma OnePerTypeScenario(name: string, items: string, clock: string)
    ensures
      var s3 := Place(Place(Place(Init(), name, "delivery", items, clock).0,
                                  name, "takeout", items, clock).0,
                      name, "dine-in", items, clock).0;
      var (s4, first) := Next(s3);
      var (s5, second) := Next(s4);
      var (s6, third) := Next(s5);
      && first.Dispatched? && first.order.id == 1 && first.order.orderType == "delivery"
      && second.Dispatched? && second.order.id == 2 && second.order.orderType == "takeout"
      && third.Dispatched? && third.order.id == 3 && third.order.orderType == "dine-in"
      && Next(s6).1 == NoPendingOrders
      && |s6.preparing| == 3
  {
  }

  /** The states after k dispatches in a row. */
  function NextN(s: State, k: nat): State
    decreases k
  {
    if k == 0 then s else NextN(Next(s).0, k - 1)
  }

  /** The orders of q marked as preparing, in the same order. */
  function Prepared(q: seq<Order>): (r: seq<Order>)
    ensures |r| == |q|
  {
    if q == [] then [] else [q[0].(status := Preparing)] + Prepared(q[1..])
  }

  /** Starvation by design: while the delivery queue still holds orders,
      every dispatch serves delivery, in FIFO order, and the takeout and
      dine-in queues are not touched. */
  lemma {:induction false} DeliveryStarvesOthers(s: State, k: nat)
    requires k <= |s.delivery|
    ensures NextN(s, k).takeout == s.takeout && NextN(s, k).dineIn == s.dineIn
    ensures NextN(s, k).delivery == s.delivery[k..]
    ensures NextN(s, k).preparing == s.preparing + Prepared(s.delivery[..k])
    decreases k
  {
    if k == 0 {
      assert s.delivery[..0] == [];
    } else {
      var s1 := Next(s).0;
      DeliveryStarvesOthers(s1, k - 1);
      assert s.delivery[1..][k - 1..] == s.delivery[k..];
      var front := s.delivery[..k];
      assert front[1..] == s.delivery[1..][..k - 1];
      assert Prepared(front) == [s.delivery[0].(status := Preparing)] + Prepared(s.delivery[1..][..k - 1]);
    }
  }

  lemma NextPreservesConsistent(s: State)
    requires Consistent(s)
    ensures Consistent(Next(s).0)
  {
    NextMovesOneOrder(s);
    var s' := Next(s).0;
    SameHeldKeepsIds(s, s');
    if s.delivery != [] {
      var o := s.delivery[0];
      assert s' == s.(delivery := s.delivery[1..], preparing := s.preparing + [o.(status := Preparing)]);
      DropFrontKeepsIntake(s.delivery, DeliveryQueue);
      AppendKeepsStage(s.preparing, Preparing, o.(status := Preparing));
    } else if s.takeout != [] {
      var o := s.takeout[0];
      assert s' == s.(takeout := s.takeout[1..], preparing := s.preparing + [o.(status := Preparing)]);
      DropFrontKeepsIntake(s.takeout, TakeoutQueue);
      AppendKeepsStage(s.preparing, Preparing, o.(status := Preparing));
    } else if s.dineIn != [] {
      var o := s.dineIn[0];
      assert s' == s.(dineIn := s.dineIn[1..], preparing := s.preparing + [o.(status := Preparing)]);
      DropFrontKeepsIntake(s.dineIn, DineInQueue);
      AppendKeepsStage(s.preparing, Preparing, o.(status := Preparing));
    }
  }

  /** A step that neither hands out an id nor changes how often any id is
      held keeps the identity part of the invariant. */
  lemma SameHeldKeepsIds(s: State, s': State)
    requires IdsOk(s) && s'.counter == s.counter
    requires forall id :: Held(s', id) == Held(s, id)
    ensures IdsOk(s')
  {
  }

  /** Taking the front off an intake queue keeps that queue's invariant. */
  lemma DropFrontKeepsIntake(q: seq<Order>, queue: QueueId)
    requires q != [] && IntakeOk(q, queue)
    ensures IntakeOk(q[1..], queue)
  {
    assert forall o :: o in q[1..] ==> o in q;
  }

  /** An order of the stage's status and its type's priority may join the
      rear of a preparing or completed queue. */
  lemma AppendKeepsStage(q: seq<Order>, status: Status, order: Order)
    requires StageOk(q, status)
    requires order.status == status && order.priority == Priority(order.orderType)
    ensures StageOk(q + [order], status)
  {
  }

  // ---------------------------------------------------------------------------
  // completeOrder

  datatype Completion = CompletedOk(orderId: int) | NotInPreparing

  /** The position of the first order with the given id, scanning from the
      front, as the prev/current walk of completeOrder finds it. */
  function FirstIndexOf(q: seq<Order>, id: int): (r: Option<nat>)
    ensures r.Some? ==> r.value < |q| && q[r.value].id == id
    ensures r.Some? ==> forall j :: 0 <= j < r.value ==> q[j].id != id
    ensures r == None <==> forall j :: 0 <= j < |q| ==> q[j].id != id
  {
    if q == [] then None
    else if q[0].id == id then Some(0)
    else match FirstIndexOf(q[1..], id)
      case None => None
      case Some(i) => Some(i + 1)
  }

  /** completeOrder; see CompleteSucceedsIff. */
  function Complete(s: State, id: int): (r: (State, Completion))
    ensures r.1 == NotInPreparing <==> FirstIndexOf(s.preparing, id) == None
    ensures r.1 == NotInPreparing ==> r.0 == s
    ensures r.1.CompletedOk? ==>
      r.1.orderId == id && |r.0.completed| == |s.completed| + 1 && r.0.completed[|s.completed|].id == id
    ensures r.0.delivery == s.delivery && r.0.takeout == s.takeout && r.0.dineIn == s.dineIn
    ensures r.0.counter == s.counter
  {
    match FirstIndexOf(s.preparing, id)
    case None => (s, NotInPreparing)
    case Some(i) =>
      var done := s.preparing[i].(status := Completed);
      (s.(preparing := RemoveAt(s.preparing, i), completed := s.completed + [done]), CompletedOk(id))
  }

  /** completeOrder succeeds exactly when some preparing order has the id; it
      then unlinks the first such order, keeps the others in order, and
      appends it, completed, to the completed queue; otherwise nothing
      changes. The intake queues and the counter are never touched. */
  lemma CompleteSucceedsIff(s: State, id: int)
    ensures var (s', r) := Complete(s, id);
      && (r.CompletedOk? <==> exists o :: o in s.preparing && o.id == id)
      && (r == NotInPreparing ==> s' == s)
      && (r.CompletedOk? ==> r.orderId == id && exists i ::
            && 0 <= i < |s.preparing| && s.preparing[i].id == id
            && (forall j :: 0 <= j < i ==> s.preparing[j].id != id)
            && s'.preparing == s.preparing[..i] + s.preparing[i + 1..]
            && s'.completed == s.completed + [s.preparing[i].(status := Completed)])
      && s'.dineIn == s.dineIn && s'.takeout == s.takeout && s'.delivery == s.delivery
      && s'.counter == s.counter
  {
    var (s', r) := Complete(s, id);
    if r.CompletedOk? {
      var i := FirstIndexOf(s.preparing, id).value;
      assert s.preparing[i] in s.preparing;
    } else {
      assert forall o :: o in s.preparing ==> o.id != id;
    }
  }

  /** Completion moves exactly one order, from preparing to the rear of
      completed, or nothing. */
  lemma CompleteMovesOneOrder(s: State, id: int)
    ensures var (s', r) := Complete(s, id);
      && (forall x :: Held(s', x) == Held(s, x))
      && (r.CompletedOk? ==> |s'.preparing| == |s.preparing| - 1 && |s'.completed| == |s.completed| + 1)
  {
    match FirstIndexOf(s.preparing, id)
    case None =>
    case Some(i) =>
      var done := s.preparing[i].(status := Completed);
      forall x
        ensures Held(Complete(s, id).0, x) == Held(s, x)
      {
        OccurrencesRemoveAt(s.preparing, i, x);
        OccurrencesAppend(s.completed, [done], x);
        assert [done][1..] == [];
      }
  }

  lemma CompletePreservesConsistent(s: State, id: int)
    requires Consistent(s)
    ensures Consistent(Complete(s, id).0)
  {
    CompleteMovesOneOrder(s, id);
    var s' := Complete(s, id).0;
    SameHeldKeepsIds(s, s');
    match FirstIndexOf(s.preparing, id)
    case None =>
    case Some(i) =>
      var o := s.preparing[i];
      assert o in s.preparing;
      assert s' == s.(preparing := RemoveAt(s.preparing, i), completed := s.completed + [o.(status := Completed)]);
      AppendKeepsStage(s.completed, Completed, o.(status := Completed));
  }

  /** Completing the same id twice succeeds at most once: after a success the
      id is no longer in the preparing queue. */
  lemma CompleteTwiceFails(s: State, id: int)
    requires Consistent(s)
    requires Complete(s, id).1.CompletedOk?
    ensures Complete(Complete(s, id).0, id).1 == NotInPreparing
  {
    var i := FirstIndexOf(s.preparing, id).value;
    var s' := Complete(s, id).0;
    assert s'.preparing == RemoveAt(s.preparing, i);
    OccurrencesRemoveAt(s.preparing, i, id);
    assert Held(s, id) <= 1;
    assert Occurrences(s'.preparing, id) == 0;
    match FirstIndexOf(s'.preparing, id)
    case None =>
    case Some(j) =>
      OccurrencesOfMember(s'.preparing, j);
  }

  // ---------------------------------------------------------------------------
  // clearCompleted

  function ClearDone(s: State): (r: State)
    ensures r.completed == [] && r.preparing == s.preparing && r.counter == s.counter
    ensures r.delivery == s.delivery && r.takeout == s.takeout && r.dineIn == s.dineIn
    ensures forall id :: Held(r, id) <= Held(s, id)
  {
    s.(completed := [])
  }

  /** Clearing empties the completed queue and leaves the other four queues
      and the counter as they were. */
  lemma ClearDoneEmptiesCompletedOnly(s: State)
    ensures Queue(ClearDone(s), CompletedQueue) == []
    ensures forall q :: q != CompletedQueue ==> Queue(ClearDone(s), q) == Queue(s, q)
    ensures ClearDone(s).counter == s.counter
  {
  }

  lemma ClearDonePreservesConsistent(s: State)
    requires Consistent(s)
    ensures Consistent(ClearDone(s))
  {
    assert forall id :: Held(ClearDone(s), id) <= Held(s, id);
  }

  // ---------------------------------------------------------------------------
  // getAllQueues and getQueueStatus

  datatype AllQueues = AllQueues(
    dineIn: QueueSnapshot,
    takeout: QueueSnapshot,
    delivery: QueueSnapshot,
    preparing: QueueSnapshot,
    completed: QueueSnapshot,
    totalPending: int,
    totalPreparing: int,
    totalCompleted: int)

  function Snapshot(s: State, q: QueueId): QueueSnapshot {
    QueueSnapshot(QueueName(q), |Queue(s, q)|, Queue(s, q))
  }

  /** getAllQueues: the five snapshots and the three totals, each total the
      sum of the counts of its stage's queues. */
  function Report(s: State): (r: AllQueues)
    ensures r.totalPending == r.dineIn.count + r.takeout.count + r.delivery.count == |PendingOrders(s)|
    ensures r.totalPreparing == r.preparing.count == |s.preparing|
    ensures r.totalCompleted == r.completed.count == |s.completed|
    ensures forall q :: && Section(r, q).queueType == QueueName(q)
                        && Section(r, q).orders == Queue(s, q)
                        && Section(r, q).count == |Queue(s, q)|
  {
    AllQueues(
      Snapshot(s, DineInQueue), Snapshot(s, TakeoutQueue), Snapshot(s, DeliveryQueue),
      Snapshot(s, PreparingQueue), Snapshot(s, CompletedQueue),
      |s.dineIn| + |s.takeout| + |s.delivery|, |s.preparing|, |s.completed|)
  }

  /** The snapshot a report holds for queue q. */
  function Section(r: AllQueues, q: QueueId): QueueSnapshot {
    match q
    case DineInQueue => r.dineIn
    case TakeoutQueue => r.takeout
    case DeliveryQueue => r.delivery
    case PreparingQueue => r.preparing
    case CompletedQueue => r.completed
  }

  /** getQueueStatus: the snapshot of the named queue, or None for
      "Invalid queue type". */
  function QueueStatus(s: State, name: string): (r: Option<QueueSnapshot>)
    ensures r.None? <==> QueueNamed(name).None?
    ensures r.Some? ==> r.value.queueType == name && r.value.count == |r.value.orders|
    ensures r.Some? ==> r.value == Snapshot(s, QueueNamed(name).value)
  {
    match QueueNamed(name)
    case None => None
    case Some(q) => Some(Snapshot(s, q))
  }

  /** Exactly the five queue names are accepted, each giving that queue. */
  lemma QueueStatusAcceptsQueueNames(s: State, name: string)
    ensures QueueStatus(s, name) == None <==> forall q :: QueueName(q) != name
    ensures forall q :: QueueStatus(s, QueueName(q)) == Some(Snapshot(s, q))
  {
    forall q | QueueName(q) == name
      ensures QueueStatus(s, name) != None
    {
      QueueNamedInvertsQueueName(q, name);
    }
    if QueueStatus(s, name) != None {
      QueueNamedInvertsQueueName(QueueNamed(name).value, name);
    }
    forall q
      ensures QueueStatus(s, QueueName(q)) == Some(Snapshot(s, q))
    {
      QueueNamedInvertsQueueName(q, name);
    }
  }

  /** The totals of the report move with each order: a dispatch turns one
      pending order into a preparing one, a completion one preparing order
      into a completed one, and the total across the three stays the same. */
  lemma StatsFollowOrders(s: State, id: int)
    ensures var (s', r) := Next(s);
      && (r.Dispatched? ==> && Report(s').totalPending == Report(s).totalPending - 1
                            && Report(s').totalPreparing == Report(s).totalPreparing + 1
                            && Report(s').totalCompleted == Report(s).totalCompleted)
      && (r == NoPendingOrders ==> Report(s') == Report(s) && Report(s).totalPending == 0)
    ensures var (s', r) := Complete(s, id);
      && (r.CompletedOk? ==> && Report(s').totalPending == Report(s).totalPending
                             && Report(s').totalPreparing == Report(s).totalPreparing - 1
                             && Report(s').totalCompleted == Report(s).totalCompleted + 1)
      && (r == NotInPreparing ==> Report(s') == Report(s))
    ensures Report(ClearDone(s)).totalCompleted == 0
  {
    NextMovesOneOrder(s);
    CompleteMovesOneOrder(s, id);
  }
}
