/** OrderQueue: the FIFO list of orders with its separately kept count. */
module OrderQueues {
  import opened Orders

  /** What toJSON reports about one queue: its name, its count field and its
      orders from front to rear. */
  datatype QueueSnapshot = QueueSnapshot(queueType: string, count: int, orders: seq<Order>)

  /** Unlinking the order at `pos` as completeOrder is evidently meant to:
      the others keep their order and the count drops with the length. */
  function Spliced(q: QueueSnapshot, pos: nat): (r: QueueSnapshot)
    requires pos < |q.orders|
    ensures r.queueType == q.queueType && r.count == q.count - 1
    ensures |r.orders| == |q.orders| - 1
    ensures forall j :: 0 <= j < pos ==> r.orders[j] == q.orders[j]
    ensures forall j :: pos <= j < |r.orders| ==> r.orders[j] == q.orders[j + 1]
  {
    q.(count := q.count - 1, orders := RemoveAt(q.orders, pos))
  }

  /** Unlinking as main.cpp:229-233 writes it: at the head through dequeue,
      which decrements the count; elsewhere by relinking prev->next only,
      which leaves the count as it was. */
  function SplicedAsWritten(q: QueueSnapshot, pos: nat): (r: QueueSnapshot)
    requires pos < |q.orders|
    ensures r.orders == Spliced(q, pos).orders
    ensures r.count == if pos == 0 then q.count - 1 else q.count
  {
    if pos == 0 then q.(count := q.count - 1, orders := q.orders[1..])
    else q.(orders := q.orders[..pos] + q.orders[pos + 1..])
  }

  /** The as-written unlink agrees with the corrected one at the head and,
      anywhere else, leaves a count one larger than the number of orders. */
  lemma SplicedAsWrittenMiscounts(q: QueueSnapshot, pos: nat)
    requires pos < |q.orders| && q.count == |q.orders|
    ensures pos == 0 ==> SplicedAsWritten(q, pos) == Spliced(q, pos)
    ensures pos > 0 ==> SplicedAsWritten(q, pos).count == |SplicedAsWritten(q, pos).orders| + 1
  {
  }

  /** A singly linked FIFO list (front to rear is `orders`) with the count
      the C++ class keeps in a field of its own. */
  class OrderQueue {
    var orders: seq<Order>
    var count: int
    const queueType: string

    /** The count field agrees with the list. */
    ghost predicate Valid()
      reads this
    {
      count == |orders|
    }

    ghost function View(): QueueSnapshot
      reads this
    {
      QueueSnapshot(queueType, count, orders)
    }

    constructor (queueType: string)
      ensures this.queueType == queueType && orders == [] && count == 0
      ensures Valid()
    {
      this.queueType := queueType;
      orders := [];
      count := 0;
    }

    /** Appends at the rear. */
    method Enqueue(order: Order)
      modifies this
      ensures orders == old(orders) + [order]
      ensures count == old(count) + 1
      ensures old(Valid()) ==> Valid()
    {
      orders := orders + [order];
      count := count + 1;
    }

    /** Removes and returns the front; on an empty list returns None and
      changes nothing. */
    method Dequeue() returns (head: Option<Order>)
      modifies this
      ensures old(orders) == [] ==> head == None && orders == old(orders) && count == old(count)
      ensures old(orders) != [] ==> head == Some(old(orders)[0]) && orders == old(orders)[1..]
      ensures old(orders) != [] ==> count == old(count) - 1
      ensures old(Valid()) ==> Valid()
    {
      if orders == [] {
        return None;
      }
      head := Some(orders[0]);
      orders := orders[1..];
      count := count - 1;
    }

    /** The front order, if any, without removing it. */
    method Peek() returns (head: Option<Order>)
      ensures head == None <==> orders == []
      ensures head != None ==> head.value == orders[0] && head.value in orders
    {
      head := if orders == [] then None else Some(orders[0]);
    }

    method IsEmpty() returns (empty: bool)
      ensures empty <==> orders == []
      ensures Valid() ==> (empty <==> count == 0)
    {
      empty := orders == [];
    }

    method GetCount() returns (n: int)
      ensures n == count
      ensures Valid() ==> n == |orders|
    {
      n := count;
    }

    /** toJSON without the formatting: walks the list from the front and
      lists every order in order, together with the name and the count. */
    method ToJson() returns (snapshot: QueueSnapshot)
      ensures snapshot.queueType == queueType && snapshot.count == count
      ensures snapshot.orders == orders
    {
      var listed: seq<Order> := [];
      var index := 0;
      while index < |orders|
        invariant 0 <= index <= |orders|
        invariant listed == orders[..index]
      {
        listed := listed + [orders[index]];
        index := index + 1;
      }
      snapshot := QueueSnapshot(queueType, count, listed);
    }

    /** Unlinks the order at `pos`, keeping the others in order. This is the
      corrected form of the unlink in completeOrder: the source does not
      decrement the count here (see SplicedAsWritten). */
    method Unlink(pos: nat)
      requires pos < |orders|
      modifies this
      ensures View() == Spliced(old(View()), pos)
      ensures old(Valid()) ==> Valid()
    {
      orders := RemoveAt(orders, pos);
      count := count - 1;
    }
  }
}
