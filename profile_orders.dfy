/**
 * The customer's order history: the order list, the order-detail modal with its
 * items and their products, and the small display helpers.
 */
module ProfileOrdersPage {

  import opened Types
  import opened Backend
  import Seqs
  import Text
  import Gateways

  /** `formatOrderId`: '#' and the first 8 characters of the id, upper-cased. */
  function FormatOrderId(id: string): (r: string)
    ensures |r| == 1 + (if |id| <= 8 then |id| else 8)
    ensures r[0] == '#'
    ensures forall i :: 0 <= i < |r| - 1 ==> r[i + 1] == Text.UpperChar(id[i])
  {
    "#" + Text.Upper(Text.Take(id, 8))
  }

  /**
   * `getProductDetails` is `find` on the loaded products, the same lookup as
   * `Gateways.ProductById`: the first product with that id, if any.
   */
  lemma {:induction false} ProductDetailsIsFirstMatch(products: seq<Product>, productId: string)
    ensures Gateways.ProductById(products, productId).Some? ==>
      exists i :: 0 <= i < |products| && products[i] == Gateways.ProductById(products, productId).value &&
        forall j :: 0 <= j < i ==> products[j].productId != productId
    ensures Gateways.ProductById(products, productId).None? <==>
      forall i :: 0 <= i < |products| ==> products[i].productId != productId
    decreases |products|
  {
    if products != [] && products[0].productId != productId {
      ProductDetailsIsFirstMatch(products[1..], productId);
      var r := Gateways.ProductById(products, productId);
      if r.Some? {
        var i :| 0 <= i < |products[1..]| && products[1..][i] == r.value &&
          forall j :: 0 <= j < i ==> products[1..][j].productId != productId;
        assert products[i + 1] == r.value;
        forall j | 0 <= j < i + 1 ensures products[j].productId != productId {
          if j > 0 {
            assert products[j] == products[1..][j - 1];
          }
        }
      } else {
        forall i | 0 <= i < |products| ensures products[i].productId != productId {
          if i > 0 {
            assert products[i] == products[1..][i - 1];
          }
        }
      }
    } else if products != [] {
      assert products[0] == Gateways.ProductById(products, productId).value;
    }
  }

  /** `itemsData.map(item => item.product_id)`: the ids the product query asks for. */
  function RequestedProductIds(items: seq<OrderItemRow>): (r: seq<string>)
    ensures |r| == |items| && forall i :: 0 <= i < |items| ==> r[i] == items[i].productId
  {
    Seqs.Map(items, (it: OrderItemRow) => it.productId)
  }

  /** `.in('product_id', ids)`: the table's products whose id is requested. */
  function ProductsIn(products: seq<Product>, ids: seq<string>): seq<Product>
  {
    Seqs.Filter(products, (p: Product) => p.productId in ids)
  }

  /** `.from('order_items').eq('order_id', orderId)`. */
  function ItemsOfOrder(orderItems: seq<OrderItemRow>, orderId: string): seq<OrderItemRow>
  {
    Seqs.Filter(orderItems, (it: OrderItemRow) => it.orderId == orderId)
  }

  /**
   * The modal's items and products: the order's items, and the products some item
   * refers to; an order without items yields two empty lists.
   */
  function OrderDetails(orderItems: seq<OrderItemRow>, products: seq<Product>, orderId: string)
    : (r: (seq<OrderItemRow>, seq<Product>))
  {
    var items := ItemsOfOrder(orderItems, orderId);
    if |items| > 0 then (items, ProductsIn(products, RequestedProductIds(items))) else ([], [])
  }

  lemma OrderDetailsProperties(orderItems: seq<OrderItemRow>, products: seq<Product>, orderId: string)
    ensures var (items, ps) := OrderDetails(orderItems, products, orderId);
      && (forall it :: it in items <==> it in orderItems && it.orderId == orderId)
      && (forall p :: p in ps <==> p in products && exists it :: it in items && it.productId == p.productId)
      && (ItemsOfOrder(orderItems, orderId) == [] ==> items == [] && ps == [])
  {
    var items := ItemsOfOrder(orderItems, orderId);
    var ids := RequestedProductIds(items);
    forall it | it in items ensures it in orderItems && it.orderId == orderId {
      var i :| 0 <= i < |items| && items[i] == it;
    }
    forall it | it in orderItems && it.orderId == orderId ensures it in items {
      var i :| 0 <= i < |orderItems| && orderItems[i] == it;
    }
    var ps := ProductsIn(products, ids);
    forall p | p in ps ensures p in products && exists it :: it in items && it.productId == p.productId {
      var i :| 0 <= i < |ps| && ps[i] == p;
      var k :| 0 <= k < |ids| && ids[k] == p.productId;
      assert items[k] in items;
    }
    forall p | p in products && (exists it :: it in items && it.productId == p.productId) ensures p in ps {
      var it :| it in items && it.productId == p.productId;
      var k :| 0 <= k < |items| && items[k] == it;
      assert ids[k] == p.productId;
      var i :| 0 <= i < |products| && products[i] == p;
    }
  }

  /** The plural in "You have N order(s) in total". */
  function OrderNoun(count: nat): (r: string)
    ensures r == "order" <==> count == 1
    ensures r == "orders" <==> count != 1
  {
    "order" + (if count != 1 then "s" else "")
  }

  class ProfileOrders {
    const store: Store
    const userId: string
    var orders: seq<OrderRow>
    var selectedOrder: Option<OrderRow>
    var items: seq<OrderItemRow>
    var products: seq<Product>
    var showOrderModal: bool
    var loadingOrderDetails: bool

    constructor (store: Store, userId: string)
      ensures this.store == store && this.userId == userId
      ensures orders == [] && selectedOrder == None && items == [] && products == []
      ensures !showOrderModal && !loadingOrderDetails
    {
      this.store := store;
      this.userId := userId;
      orders, selectedOrder, items, products := [], None, [], [];
      showOrderModal, loadingOrderDetails := false, false;
    }

    /** `fetchOrders`: the user's orders; a failed read keeps the list. */
    method FetchOrders(readFails: bool)
      modifies this`orders
      ensures orders == if readFails then old(orders) else Seqs.Filter(store.orders, (o: OrderRow) => o.userId == userId)
    {
      if !readFails {
        orders := Seqs.Filter(store.orders, (o: OrderRow) => o.userId == userId);
      }
    }

    /**
     * `fetchOrderDetails`: a failed item or product read keeps the modal's lists;
     * the loading flag is off afterwards either way.
     */
    method FetchOrderDetails(orderId: string, itemsFail: bool, productsFail: bool)
      modifies this`items, this`products, this`loadingOrderDetails
      ensures !loadingOrderDetails
      ensures var found := ItemsOfOrder(store.orderItems, orderId);
        if itemsFail || (|found| > 0 && productsFail) then items == old(items) && products == old(products)
        else (items, products) == OrderDetails(store.orderItems, store.products, orderId)
    {
      loadingOrderDetails := true;
      var found := ItemsOfOrder(store.orderItems, orderId);
      if !itemsFail {
        if |found| > 0 {
          if !productsFail {
            items, products := found, ProductsIn(store.products, RequestedProductIds(found));
          }
        } else {
          items, products := [], [];
        }
      }
      loadingOrderDetails := false;
    }

    /** `handleOrderClick`: open the modal on the order, then load its details. */
    method HandleOrderClick(order: OrderRow, itemsFail: bool, productsFail: bool)
      modifies this`selectedOrder, this`showOrderModal, this`items, this`products, this`loadingOrderDetails
      ensures selectedOrder == Some(order) && showOrderModal && !loadingOrderDetails
      ensures var found := ItemsOfOrder(store.orderItems, order.id);
        if itemsFail || (|found| > 0 && productsFail) then items == old(items) && products == old(products)
        else (items, products) == OrderDetails(store.orderItems, store.products, order.id)
    {
      selectedOrder := Some(order);
      showOrderModal := true;
      FetchOrderDetails(order.id, itemsFail, productsFail);
    }

    /** `closeModal`. */
    method CloseModal()
      modifies this`showOrderModal, this`selectedOrder, this`items, this`products
      ensures !showOrderModal && selectedOrder == None && items == [] && products == []
    {
      showOrderModal := false;
      selectedOrder := None;
      items, products := [], [];
    }
  }
}
