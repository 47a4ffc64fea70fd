/**
 * The orders page: how an order's header is shown (short number, status
 * label and colour), when its cancel button is disabled, and the
 * confirm-before-cancel flow kept in the `orderToCancel` state cell.
 */
module OrdersPage {
  import opened Prelude
  import opened Text
  import opened Orders
  import opened Storage
  import opened OrdersContext

  const PendingStyle := "bg-yellow-100 dark:bg-yellow-900/30 text-yellow-800 dark:text-yellow-300"
  const PreparingStyle := "bg-blue-100 dark:bg-blue-900/30 text-blue-800 dark:text-blue-300"
  const DeliveredStyle := "bg-green-100 dark:bg-green-900/30 text-green-800 dark:text-green-300"
  const CancelledStyle := "bg-red-100 dark:bg-red-900/30 text-red-800 dark:text-red-300"
  const DefaultStyle := "bg-gray-100 dark:bg-gray-800 text-gray-800 dark:text-gray-300"

  /** `getStatusColor(status)`: a switch over the status string with a grey default. */
  function StatusColor(status: string): (style: string) {
    if status == "pending" then PendingStyle
    else if status == "preparing" then PreparingStyle
    else if status == "delivered" then DeliveredStyle
    else if status == "cancelled" then CancelledStyle
    else DefaultStyle
  }

  /** The four statuses get four different styles, none the default; any other string gets the default. */
  lemma StatusColorsDistinct(s: Status, t: Status, other: string)
    requires other !in {"pending", "preparing", "delivered", "cancelled"}
    ensures s != t ==> StatusColor(StatusName(s)) != StatusColor(StatusName(t))
    ensures StatusColor(StatusName(s)) != DefaultStyle
    ensures StatusColor(other) == DefaultStyle
  {
    // The five class strings already differ in length.
    assert |PendingStyle| == 72 && |PreparingStyle| == 64 && |DeliveredStyle| == 68;
    assert |CancelledStyle| == 60 && |DefaultStyle| == 61;
  }

  /** The cancel button is disabled exactly for cancelled and delivered orders. */
  function CancelDisabled(s: Status): (disabled: bool)
    ensures disabled <==> s in {Cancelled, Delivered}
  {
    s == Cancelled || s == Delivered
  }

  /** The cancel button's caption. */
  function CancelCaption(s: Status): (caption: string)
    ensures caption == if s == Cancelled then "Order Cancelled" else "Cancel Order"
  {
    if s == Cancelled then "Order Cancelled" else "Cancel Order"
  }

  /** The caption names the state the button is disabled in: a cancelled order cannot be cancelled again. */
  lemma CancelledCaptionIsDisabled(s: Status)
    ensures CancelCaption(s) == "Order Cancelled" ==> CancelDisabled(s)
    ensures !CancelDisabled(s) <==> s in {Pending, Preparing}
  {
  }

  /**
   * Once every order with an id is cancelled, each of them shows a disabled
   * button captioned "Order Cancelled"; the other orders' buttons are as before.
   */
  lemma CancelledOrdersShowCancelled(orders: seq<Order>, orderId: string)
    ensures forall i :: 0 <= i < |orders| && orders[i].id == orderId ==>
              var s := UpdateOrderStatus(orders, orderId, Cancelled)[i].status;
              CancelDisabled(s) && CancelCaption(s) == "Order Cancelled"
    ensures forall i :: 0 <= i < |orders| && orders[i].id != orderId ==>
              UpdateOrderStatus(orders, orderId, Cancelled)[i].status == orders[i].status
  {
  }

  /** `order.id.slice(-6)`: the order number shown in the header. */
  function ShortId(id: string): (r: string)
    ensures |id| <= 6 ==> r == id
    ensures |id| > 6 ==> |r| == 6 && id == id[..|id| - 6] + r
  {
    LastChars(id, 6)
  }

  /** `status.charAt(0).toUpperCase() + status.slice(1)`. */
  function StatusLabel(s: Status): (r: string) {
    Capitalize(StatusName(s))
  }

  /** The labels the badge shows. */
  lemma StatusLabels()
    ensures StatusLabel(Pending) == "Pending" && StatusLabel(Preparing) == "Preparing"
    ensures StatusLabel(Delivered) == "Delivered" && StatusLabel(Cancelled) == "Cancelled"
  {
    assert "pending"[1..] == "ending" && "preparing"[1..] == "reparing";
    assert "delivered"[1..] == "elivered" && "cancelled"[1..] == "ancelled";
  }

  /** The label is the status with only its first letter raised. */
  lemma StatusLabelShape(s: Status)
    ensures |StatusLabel(s)| == |StatusName(s)|
    ensures StatusLabel(s)[1..] == StatusName(s)[1..]
    ensures 'A' <= StatusLabel(s)[0] <= 'Z'
  {
    var n := StatusName(s);
    assert 'a' <= n[0] <= 'z';
  }

  class OrdersPageState {
    var orderToCancel: Option<string>
    const store: OrdersProvider

    constructor (store: OrdersProvider)
      ensures orderToCancel.None? && this.store == store
    {
      orderToCancel := None;
      this.store := store;
    }

    /** `{orderToCancel && ...}`: the modal shows for a non-empty pending id only. */
    predicate ModalOpen()
      reads this
    {
      orderToCancel.Some? && orderToCancel.value != ""
    }

    /** `handleCancelClick(orderId)`: remember which order to cancel. */
    method HandleCancelClick(orderId: string)
      modifies this
      ensures orderToCancel == Some(orderId)
    {
      orderToCancel := Some(orderId);
    }

    /**
     * `handleConfirmCancel`: with a (truthy) pending id, set every order with
     * that id to cancelled and forget the id; otherwise nothing happens.
     */
    method HandleConfirmCancel()
      requires store.storage.WellTyped()
      modifies this, store, store.storage
      ensures old(ModalOpen()) ==>
                && store.orders == UpdateOrderStatus(old(store.orders), old(orderToCancel).value, Cancelled)
                && orderToCancel.None? && store.Persisted()
                && store.storage.entries == old(store.storage.entries)[OrdersKey := OrdersEntry(store.orders)]
                && forall i :: 0 <= i < |store.orders| && store.orders[i].id == old(orderToCancel).value ==>
                     CancelDisabled(store.orders[i].status) &&
                     CancelCaption(store.orders[i].status) == "Order Cancelled"
      ensures !old(ModalOpen()) ==>
                && store.orders == old(store.orders) && orderToCancel == old(orderToCancel)
                && store.storage.entries == old(store.storage.entries)
    {
      if orderToCancel.Some? && orderToCancel.value != "" {
        CancelledOrdersShowCancelled(store.orders, orderToCancel.value);
        store.UpdateOrderStatus(orderToCancel.value, Cancelled);
        orderToCancel := None;
      }
    }

    /** `handleCancelModal`: dismiss; the orders are not touched. */
    method HandleCancelModal()
      modifies this
      ensures orderToCancel.None? && store.orders == old(store.orders)
    {
      orderToCancel := None;
    }
  }
}
