/**
 * The admin order list: filtering by status and search text, the per-status tab
 * counts, the status styling, and changing an order's status (which also
 * notifies the customer).
 */
module AdminOrdersPage {

  import opened Types
  import opened Backend
  import Seqs
  import Text
  import Dashboard = AdminDashboardPage

  /** An order as the admin list holds it: the row and its customer's profile name. */
  datatype AdminOrder = AdminOrder(row: OrderRow, customerName: Option<string>)

  function RowsOf(orders: seq<AdminOrder>): (r: seq<OrderRow>)
    ensures |r| == |orders| && forall i :: 0 <= i < |orders| ==> r[i] == orders[i].row
  {
    Seqs.Map(orders, (o: AdminOrder) => o.row)
  }

  /**
   * The predicate of `filteredOrders`: the status tab, then a search hit on the
   * lower-cased id or customer name, or on the amount's text (not lower-cased).
   * `render` is `total_amount.toString()`.
   */
  predicate OrderShown(o: AdminOrder, statusFilter: string, searchTerm: string, render: real -> string)
  {
    var q := Text.Lower(searchTerm);
    && (statusFilter == "all" || o.row.status == statusFilter)
    && (|| Text.Contains(Text.Lower(o.row.id), q)
        || (o.customerName.Some? && Text.Contains(Text.Lower(o.customerName.value), q))
        || Text.Contains(render(o.row.totalAmount), searchTerm))
  }

  /** `filteredOrders`. */
  function FilterOrders(orders: seq<AdminOrder>, statusFilter: string, searchTerm: string, render: real -> string): seq<AdminOrder>
  {
    Seqs.Filter(orders, (o: AdminOrder) => OrderShown(o, statusFilter, searchTerm, render))
  }

  /**
   * The filtered list is an order-preserving subsequence; outside the 'all' tab every
   * kept order has the tab's status.
   */
  lemma FilterOrdersProperties(orders: seq<AdminOrder>, statusFilter: string, searchTerm: string, render: real -> string)
    ensures Seqs.IsSubsequence(FilterOrders(orders, statusFilter, searchTerm, render), orders)
    ensures statusFilter != "all" ==>
      forall i :: 0 <= i < |FilterOrders(orders, statusFilter, searchTerm, render)| ==>
        FilterOrders(orders, statusFilter, searchTerm, render)[i].row.status == statusFilter
    ensures forall i :: 0 <= i < |orders| && OrderShown(orders[i], statusFilter, searchTerm, render) ==>
      orders[i] in FilterOrders(orders, statusFilter, searchTerm, render)
  {
    Seqs.FilterIsSubsequence(orders, (o: AdminOrder) => OrderShown(o, statusFilter, searchTerm, render));
  }

  /** An empty search on a tab shows exactly the orders with that tab's status. */
  lemma {:induction false} EmptySearchShowsTab(orders: seq<AdminOrder>, statusFilter: string, render: real -> string)
    ensures statusFilter == "all" ==> FilterOrders(orders, statusFilter, "", render) == orders
    ensures statusFilter != "all" ==>
      FilterOrders(orders, statusFilter, "", render) == Seqs.Filter(orders, (o: AdminOrder) => o.row.status == statusFilter)
  {
    forall i | 0 <= i < |orders|
      ensures OrderShown(orders[i], statusFilter, "", render) == (statusFilter == "all" || orders[i].row.status == statusFilter)
    {
      Text.ContainsEmpty(Text.Lower(orders[i].row.id));
      assert Text.Lower("") == "";
    }
    var shown := (o: AdminOrder) => OrderShown(o, statusFilter, "", render);
    if statusFilter == "all" {
      Seqs.FilterKeepsAll(orders, shown);
    } else {
      Seqs.FilterSameOn(orders, shown, (o: AdminOrder) => o.row.status == statusFilter);
    }
  }

  /** `statusCounts`. */
  datatype StatusCounts = StatusCounts(all: nat, pending: nat, completed: nat, cancelled: nat)

  function CountStatuses(orders: seq<AdminOrder>): StatusCounts
  {
    var rows := RowsOf(orders);
    StatusCounts(|orders|, Dashboard.CountWithStatus(rows, Dashboard.Pending),
                 Dashboard.CountWithStatus(rows, Dashboard.Completed), Dashboard.CountWithStatus(rows, Dashboard.Cancelled))
  }

  /**
   * Each tab's count is the length of the list that tab shows with an empty search,
   * and the three status tabs together never exceed the 'all' tab.
   */
  lemma StatusCountsMatchTabs(orders: seq<AdminOrder>, render: real -> string)
    ensures CountStatuses(orders).all == |FilterOrders(orders, "all", "", render)|
    ensures CountStatuses(orders).pending == |FilterOrders(orders, Dashboard.Pending, "", render)|
    ensures CountStatuses(orders).completed == |FilterOrders(orders, Dashboard.Completed, "", render)|
    ensures CountStatuses(orders).cancelled == |FilterOrders(orders, Dashboard.Cancelled, "", render)|
    ensures CountStatuses(orders).pending + CountStatuses(orders).completed + CountStatuses(orders).cancelled <= CountStatuses(orders).all
  {
    EmptySearchShowsTab(orders, "all", render);
    TabCount(orders, Dashboard.Pending, render);
    TabCount(orders, Dashboard.Completed, render);
    TabCount(orders, Dashboard.Cancelled, render);
    Dashboard.StatusCountsBounded(RowsOf(orders));
  }

  lemma TabCount(orders: seq<AdminOrder>, s: string, render: real -> string)
    requires s != "all"
    ensures Dashboard.CountWithStatus(RowsOf(orders), s) == |FilterOrders(orders, s, "", render)|
  {
    EmptySearchShowsTab(orders, s, render);
    Seqs.FilterMapLength(orders, (o: AdminOrder) => o.row, Dashboard.HasStatus(s), (o: AdminOrder) => o.row.status == s);
  }

  /** `getStatusColor`. */
  function StatusColor(status: string): string
  {
    match status
    case "completed" => "from-green-200 to-green-300 text-green-800"
    case "cancelled" => "from-red-200 to-red-300 text-red-800"
    case _ => "from-yellow-200 to-orange-200 text-orange-800"
  }

  /** `getStatusIcon`. */
  function StatusIcon(status: string): string
  {
    match status
    case "completed" => "\U{2705}"
    case "cancelled" => "\U{274C}"
    case _ => "\U{23F3}"
  }

  /** Every status other than completed and cancelled looks like pending; the three looks differ. */
  lemma StatusStyling(status: string)
    ensures status != Dashboard.Completed && status != Dashboard.Cancelled ==>
      StatusColor(status) == StatusColor(Dashboard.Pending) && StatusIcon(status) == StatusIcon(Dashboard.Pending)
    ensures StatusColor(Dashboard.Completed) != StatusColor(Dashboard.Pending)
    ensures StatusColor(Dashboard.Cancelled) != StatusColor(Dashboard.Pending)
    ensures StatusColor(Dashboard.Completed) != StatusColor(Dashboard.Cancelled)
    ensures StatusIcon(Dashboard.Completed) != StatusIcon(Dashboard.Cancelled)
  {
  }

  /** The table update `update({ status }).eq('id', id)`. */
  function SetRowStatus(rows: seq<OrderRow>, id: string, s: string): (r: seq<OrderRow>)
    ensures |r| == |rows|
    ensures forall i :: 0 <= i < |rows| ==> r[i] == if rows[i].id == id then rows[i].(status := s) else rows[i]
  {
    Seqs.Map(rows, (o: OrderRow) => if o.id == id then o.(status := s) else o)
  }

  /** `order.id === orderId ? { ...order, status: newStatus } : order`. */
  function SetOrderStatus(orders: seq<AdminOrder>, id: string, s: string): (r: seq<AdminOrder>)
    ensures |r| == |orders|
    ensures forall i :: 0 <= i < |orders| ==>
      r[i] == if orders[i].row.id == id then orders[i].(row := orders[i].row.(status := s)) else orders[i]
  {
    Seqs.Map(orders, (o: AdminOrder) => if o.row.id == id then o.(row := o.row.(status := s)) else o)
  }

  /**
   * The local list follows the table: updating the list gives the rows the table
   * update gives.  Re-applying the same status changes nothing.
   */
  lemma SetStatusProperties(orders: seq<AdminOrder>, id: string, s: string)
    ensures RowsOf(SetOrderStatus(orders, id, s)) == SetRowStatus(RowsOf(orders), id, s)
    ensures SetOrderStatus(SetOrderStatus(orders, id, s), id, s) == SetOrderStatus(orders, id, s)
    ensures forall i :: 0 <= i < |orders| && orders[i].row.id == id ==> SetOrderStatus(orders, id, s)[i].row.status == s
  {
  }

  /** The rows `.eq('id', id)` selects. */
  function OrdersWithId(rows: seq<OrderRow>, id: string): seq<OrderRow>
  {
    Seqs.Filter(rows, (o: OrderRow) => o.id == id)
  }

  const StatusUpdatedTitle := "Order Status Updated"
  const UpdateErrorMessage := "\U{274C} Error updating order status"

  function UpdatedToast(s: string): string
  {
    "Order status updated to " + s + "!"
  }

  /** The customer's message: the first 8 characters of the order id and the new status. */
  function StatusMessage(orderId: string, s: string): string
  {
    "Your order #" + Text.Take(orderId, 8) + " status has been updated to \"" + s + "\"."
  }

  lemma StatusMessageMentions(orderId: string, s: string)
    ensures Text.Contains(StatusMessage(orderId, s), Text.Take(orderId, 8))
    ensures Text.Contains(StatusMessage(orderId, s), s)
  {
    var tail := " status has been updated to \"" + s + "\".";
    Text.ContainsInfix("Your order #", Text.Take(orderId, 8), tail);
    assert StatusMessage(orderId, s) == "Your order #" + Text.Take(orderId, 8) + tail;
    assert StatusMessage(orderId, s) == ("Your order #" + Text.Take(orderId, 8) + " status has been updated to \"") + s + "\".";
    Text.ContainsInfix("Your order #" + Text.Take(orderId, 8) + " status has been updated to \"", s, "\".");
  }

  class AdminOrders {
    const store: Store
    var orders: seq<AdminOrder>
    var selectedOrder: Option<AdminOrder>

    constructor (store: Store, orders: seq<AdminOrder>)
      ensures this.store == store && this.orders == orders && selectedOrder == None
    {
      this.store := store;
      this.orders := orders;
      selectedOrder := None;
    }

    /**
     * `updateOrderStatus`.  The update's `.single()` fails unless exactly one row has
     * the id; then only the error toast appears.  Otherwise the table, the list and
     * an open order with that id get the new status, the success toast appears, and
     * the customer is sent an unread notification; a failed notification insert adds
     * the error toast after the success toast.
     */
    method UpdateOrderStatus(orderId: string, newStatus: string, updateFails: bool, notifyFails: bool)
      returns (toasts: seq<Effect>)
      modifies this`orders, this`selectedOrder, store`orders, store`notifications, store`nextId
      ensures updateFails || |OrdersWithId(old(store.orders), orderId)| != 1 ==>
        toasts == [Toast(UpdateErrorMessage, Error)] && unchanged(this) && unchanged(store)
      ensures !updateFails && |OrdersWithId(old(store.orders), orderId)| == 1 ==>
        var updated := OrdersWithId(old(store.orders), orderId)[0];
        && store.orders == SetRowStatus(old(store.orders), orderId, newStatus)
        && orders == SetOrderStatus(old(orders), orderId, newStatus)
        && selectedOrder == (if old(selectedOrder).Some? && old(selectedOrder).value.row.id == orderId
                             then Some(old(selectedOrder).value.(row := old(selectedOrder).value.row.(status := newStatus)))
                             else old(selectedOrder))
        && store.notifications == old(store.notifications) +
             (if notifyFails then []
              else [NotificationRow(RowId(old(store.nextId)), updated.userId, StatusUpdatedTitle, StatusMessage(orderId, newStatus), false)])
        && toasts == [Toast(UpdatedToast(newStatus), Success)] + (if notifyFails then [Toast(UpdateErrorMessage, Error)] else [])
    {
      var matched := OrdersWithId(store.orders, orderId);
      if updateFails || |matched| != 1 {
        return [Toast(UpdateErrorMessage, Error)];
      }
      store.orders := SetRowStatus(store.orders, orderId, newStatus);
      orders := SetOrderStatus(orders, orderId, newStatus);
      if selectedOrder.Some? && selectedOrder.value.row.id == orderId {
        selectedOrder := Some(selectedOrder.value.(row := selectedOrder.value.row.(status := newStatus)));
      }
      toasts := [Toast(UpdatedToast(newStatus), Success)];
      if notifyFails {
        toasts := toasts + [Toast(UpdateErrorMessage, Error)];
      } else {
        var id := store.NewId();
        store.notifications := store.notifications +
          [NotificationRow(id, matched[0].userId, StatusUpdatedTitle, StatusMessage(orderId, newStatus), false)];
      }
    }
  }
}
