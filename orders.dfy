/**
 * The `Order` record of the orders context and the two next-state
 * computations its provider applies to the order list: prepending a new
 * order and rewriting the status of the orders with a given id.
 */
module Orders {
  import opened Cart

  /** The closed set of statuses; the record type admits no other. */
  datatype Status = Pending | Preparing | Delivered | Cancelled

  /** The status as the string the storefront stores and compares. */
  function StatusName(s: Status): string {
    match s
    case Pending => "pending"
    case Preparing => "preparing"
    case Delivered => "delivered"
    case Cancelled => "cancelled"
  }

  datatype Order = Order(
    id: string,
    items: seq<CartItem>,
    total: real,
    address: string,
    phone: string,
    paymentMethod: string,
    status: Status,
    date: string)

  /** `[order, ...prevOrders]`: the new order first, then every earlier one in its old place. */
  function AddOrder(orders: seq<Order>, order: Order): (r: seq<Order>)
    ensures |r| == |orders| + 1
    ensures r[0] == order
    ensures forall i :: 0 <= i < |orders| ==> r[i + 1] == orders[i]
  {
    [order] + orders
  }

  /**
   * `prevOrders.map((order) => order.id === orderId ? { ...order, status } : order)`:
   * every order with that id, not only the first, gets the new status and keeps
   * all its other fields; every other order is left as it was.
   */
  function UpdateOrderStatus(orders: seq<Order>, orderId: string, status: Status): (r: seq<Order>)
    ensures |r| == |orders|
    ensures forall i :: 0 <= i < |orders| ==>
              r[i] == if orders[i].id == orderId then orders[i].(status := status) else orders[i]
  {
    if orders == [] then []
    else
      var head := if orders[0].id == orderId then orders[0].(status := status) else orders[0];
      [head] + UpdateOrderStatus(orders[1..], orderId, status)
  }

  /** The ids in list order. */
  function Ids(orders: seq<Order>): (r: seq<string>)
    ensures |r| == |orders| && forall i :: 0 <= i < |orders| ==> r[i] == orders[i].id
  {
    seq(|orders|, i requires 0 <= i < |orders| => orders[i].id)
  }

  /** An unknown id leaves the whole list as it was. */
  lemma UpdateUnknownId(orders: seq<Order>, orderId: string, status: Status)
    requires forall i :: 0 <= i < |orders| ==> orders[i].id != orderId
    ensures UpdateOrderStatus(orders, orderId, status) == orders
  {
    var r := UpdateOrderStatus(orders, orderId, status);
    assert forall i :: 0 <= i < |orders| ==> r[i] == orders[i];
  }

  /**
   * A status update moves nothing: the ids stay in place, and each order's
   * items, total, address, phone, payment method and date are unchanged.
   */
  lemma UpdateKeepsContents(orders: seq<Order>, orderId: string, status: Status)
    ensures Ids(UpdateOrderStatus(orders, orderId, status)) == Ids(orders)
    ensures forall i :: 0 <= i < |orders| ==>
              UpdateOrderStatus(orders, orderId, status)[i].(status := orders[i].status) == orders[i]
  {
    var r := UpdateOrderStatus(orders, orderId, status);
    assert forall i :: 0 <= i < |orders| ==> Ids(r)[i] == Ids(orders)[i];
  }

  /** Updating twice with the same id keeps only the second status. */
  lemma UpdateTwiceLastWins(orders: seq<Order>, orderId: string, first: Status, second: Status)
    ensures UpdateOrderStatus(UpdateOrderStatus(orders, orderId, first), orderId, second)
         == UpdateOrderStatus(orders, orderId, second)
  {
    var once := UpdateOrderStatus(orders, orderId, first);
    var lhs := UpdateOrderStatus(once, orderId, second);
    var rhs := UpdateOrderStatus(orders, orderId, second);
    assert forall i :: 0 <= i < |orders| ==> lhs[i] == rhs[i];
  }

  /** Updates of two different ids do not interfere. */
  lemma UpdatesCommute(orders: seq<Order>, a: string, sa: Status, b: string, sb: Status)
    requires a != b
    ensures UpdateOrderStatus(UpdateOrderStatus(orders, a, sa), b, sb)
         == UpdateOrderStatus(UpdateOrderStatus(orders, b, sb), a, sa)
  {
    var lhs := UpdateOrderStatus(UpdateOrderStatus(orders, a, sa), b, sb);
    var rhs := UpdateOrderStatus(UpdateOrderStatus(orders, b, sb), a, sa);
    assert forall i :: 0 <= i < |orders| ==> lhs[i] == rhs[i];
  }

  /** Updating after prepending is prepending the updated order to the updated list. */
  lemma UpdateAfterAdd(orders: seq<Order>, order: Order, orderId: string, status: Status)
    ensures UpdateOrderStatus(AddOrder(orders, order), orderId, status)
         == AddOrder(UpdateOrderStatus(orders, orderId, status),
                     if order.id == orderId then order.(status := status) else order)
  {
    var lhs := UpdateOrderStatus(AddOrder(orders, order), orderId, status);
    var rhs := AddOrder(UpdateOrderStatus(orders, orderId, status),
                        if order.id == orderId then order.(status := status) else order);
    assert lhs[0] == rhs[0];
    assert forall i :: 1 <= i < |lhs| ==> lhs[i] == rhs[i];
  }
}
