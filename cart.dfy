/**
 * The cart page: quantity changes, removal, the running total and the
 * simulated checkout that turns the cart into an order.
 */
module CartPage {

  import opened Types
  import Seqs
  import Gateways
  import opened Backend

  /** A cart line as the page holds it: the `cart` row joined with its product. */
  datatype CartItem = CartItem(id: string, userId: string, productId: string, quantity: int, product: Option<Product>)

  /** `item.product?.price || 0`: a line without its product is priced 0. */
  function UnitPrice(item: CartItem): real
  {
    if item.product.Some? then item.product.value.price else 0.0
  }

  /** `getTotalPrice`: the sum of unit price times quantity over the lines. */
  function TotalPrice(items: seq<CartItem>): real
  {
    if items == [] then 0.0 else UnitPrice(items[0]) * items[0].quantity as real + TotalPrice(items[1..])
  }

  /** The local update after a quantity change: `item.id === itemId ? { ...item, quantity } : item`. */
  function WithQuantity(items: seq<CartItem>, itemId: string, q: int): (r: seq<CartItem>)
    ensures |r| == |items|
    ensures forall i :: 0 <= i < |items| && items[i].id != itemId ==> r[i] == items[i]
    ensures forall i :: 0 <= i < |items| && items[i].id == itemId ==> r[i] == items[i].(quantity := q)
  {
    Seqs.Map(items, (item: CartItem) => if item.id == itemId then item.(quantity := q) else item)
  }

  /** The local update after a removal: `prev.filter(item => item.id !== itemId)`. */
  function WithoutItem(items: seq<CartItem>, itemId: string): seq<CartItem>
  {
    Seqs.Filter(items, (item: CartItem) => item.id != itemId)
  }

  /** Every line of the list has a positive quantity. */
  predicate ItemsPositive(items: seq<CartItem>)
  {
    forall i :: 0 <= i < |items| ==> items[i].quantity >= 1
  }

  /** Removal drops exactly the lines with that id and keeps the rest in their order. */
  lemma RemoveKeepsOthersInOrder(items: seq<CartItem>, itemId: string)
    ensures Seqs.IsSubsequence(WithoutItem(items, itemId), items)
    ensures forall i :: 0 <= i < |WithoutItem(items, itemId)| ==> WithoutItem(items, itemId)[i].id != itemId
    ensures forall i :: 0 <= i < |items| && items[i].id != itemId ==> items[i] in WithoutItem(items, itemId)
  {
    Seqs.FilterIsSubsequence(items, (item: CartItem) => item.id != itemId);
  }

  /**
   * Whatever quantity the user picks, no line ends up with a non-positive quantity:
   * a positive value is stored, anything else removes the line.
   */
  lemma QuantityChangeKeepsPositive(items: seq<CartItem>, itemId: string, q: int)
    requires ItemsPositive(items)
    ensures q > 0 ==> ItemsPositive(WithQuantity(items, itemId, q))
    ensures q <= 0 ==> ItemsPositive(WithoutItem(items, itemId))
  {
    var r := WithoutItem(items, itemId);
    forall i | 0 <= i < |r| ensures r[i].quantity >= 1 {
      assert r[i] in items;
    }
  }

  /** The `order_items` rows checkout inserts: one per line, with the price snapshot. */
  function OrderItemsFor(items: seq<CartItem>, orderId: string): (r: seq<OrderItemRow>)
    ensures |r| == |items|
    ensures forall i :: 0 <= i < |items| ==>
      r[i].orderId == orderId && r[i].productId == items[i].productId &&
      r[i].quantity == items[i].quantity && r[i].price == UnitPrice(items[i])
  {
    Seqs.Map(items, (item: CartItem) => OrderItemRow(orderId, item.productId, item.quantity, UnitPrice(item)))
  }

  /** The sum of price times quantity over order items. */
  function OrderItemsSum(rows: seq<OrderItemRow>): real
  {
    if rows == [] then 0.0 else rows[0].price * rows[0].quantity as real + OrderItemsSum(rows[1..])
  }

  /** The order items of a checkout add up to the order's `total_amount`. */
  lemma {:induction false} OrderItemsMatchTotal(items: seq<CartItem>, orderId: string)
    ensures OrderItemsSum(OrderItemsFor(items, orderId)) == TotalPrice(items)
    decreases |items|
  {
    if items != [] {
      OrderItemsMatchTotal(items[1..], orderId);
      assert OrderItemsFor(items, orderId)[1..] == OrderItemsFor(items[1..], orderId);
    }
  }

  /** The checkout gate: a profile with a name and a phone, and at least one address. */
  predicate ProfileComplete(profile: Option<ProfileRow>, addresses: seq<AddressRow>)
  {
    profile.Some? && Truthy(profile.value.name) && Truthy(profile.value.phone) && |addresses| > 0
  }

  /** `from('cart').delete().eq('user_id', u)`: other users' rows stay, in order. */
  function CartWithoutUser(cart: seq<CartRow>, u: string): (r: seq<CartRow>)
    ensures forall i :: 0 <= i < |r| ==> r[i].userId != u
    ensures Seqs.IsSubsequence(r, cart)
    ensures forall i :: 0 <= i < |cart| && cart[i].userId != u ==> cart[i] in r
  {
    Seqs.FilterIsSubsequence(cart, (row: CartRow) => row.userId != u);
    Seqs.Filter(cart, (row: CartRow) => row.userId != u)
  }

  /** The `cart` row behind a line, without its joined product. */
  function RowOf(item: CartItem): CartRow
  {
    CartRow(item.id, item.userId, item.productId, item.quantity)
  }

  /** The `cart` rows behind the lines, in order (a `map` of `RowOf`). */
  function RowsOfLines(items: seq<CartItem>): (r: seq<CartRow>)
    ensures |r| == |items|
    ensures forall i :: 0 <= i < |items| ==> r[i] == RowOf(items[i])
  {
    if items == [] then [] else [RowOf(items[0])] + RowsOfLines(items[1..])
  }

  /**
   * The rows of a user's cart, each joined with its product: exactly the user's
   * rows, every one of them, in table order.
   */
  function JoinedCart(cart: seq<CartRow>, products: seq<Product>, u: string): (r: seq<CartItem>)
    ensures RowsOfLines(r) == Seqs.Filter(cart, (row: CartRow) => row.userId == u)
    ensures Seqs.IsSubsequence(RowsOfLines(r), cart)
    ensures forall i :: 0 <= i < |cart| && cart[i].userId == u ==> cart[i] in RowsOfLines(r)
    ensures forall i :: 0 <= i < |r| ==>
      r[i].userId == u && r[i].product == Gateways.ProductById(products, r[i].productId)
  {
    var rows := Seqs.Filter(cart, (row: CartRow) => row.userId == u);
    Seqs.FilterIsSubsequence(cart, (row: CartRow) => row.userId == u);
    var r := Seqs.Map(rows, (row: CartRow) => CartItem(row.id, row.userId, row.productId, row.quantity, Gateways.ProductById(products, row.productId)));
    assert RowsOfLines(r) == rows;
    r
  }

  /**
   * A rejected delete leaves the page and the table apart: the line is gone from
   * the list, but the row is still the user's, so the next fetch shows it again.
   */
  lemma RejectedRemoveComesBack(cart: seq<CartRow>, products: seq<Product>, u: string, items: seq<CartItem>, k: nat)
    requires k < |cart| && cart[k].userId == u
    ensures forall i :: 0 <= i < |WithoutItem(items, cart[k].id)| ==> WithoutItem(items, cart[k].id)[i].id != cart[k].id
    ensures cart[k] in RowsOfLines(JoinedCart(cart, products, u))
  {
  }

  const CompleteProfileMessage := "Please complete your profile information first"
  const PaymentFailedMessage := "Payment failed. Please try again."
  const PaymentSuccessMessage := "Payment successful! Order placed."
  const OrderPlacedTitle := "Order Placed Successfully!"

  /** The confirmation text; `render` is `toFixed(2)`. */
  function OrderPlacedMessage(total: real, render: real -> string): string
  {
    "Your order of Rs. " + render(total) + " has been placed successfully."
  }

  class Cart {
    const store: Store
    const userId: string
    var cartItems: seq<CartItem>
    var profile: Option<ProfileRow>
    var addresses: seq<AddressRow>

    constructor (store: Store, userId: string)
      ensures this.store == store && this.userId == userId
      ensures cartItems == [] && profile == None && addresses == []
    {
      this.store := store;
      this.userId := userId;
      cartItems, profile, addresses := [], None, [];
    }

    /** `fetchCart`: the user's rows joined with their products; a failed read leaves the list. */
    method FetchCart(readFails: bool)
      modifies this`cartItems
      ensures cartItems == if readFails then old(cartItems) else JoinedCart(store.cart, store.products, userId)
    {
      if !readFails {
        cartItems := JoinedCart(store.cart, store.products, userId);
      }
    }

    /** `fetchUserData`: the first profile row with the user's id, and the user's addresses. */
    method FetchUserData()
      modifies this`profile, this`addresses
      ensures var rows := Seqs.Filter(store.profiles, (p: ProfileRow) => p.id == userId);
        profile == if |rows| > 0 then Some(rows[0]) else old(profile)
      ensures addresses == Seqs.Filter(store.addresses, (a: AddressRow) => a.userId == userId)
    {
      var rows := Seqs.Filter(store.profiles, (p: ProfileRow) => p.id == userId);
      if |rows| > 0 {
        profile := Some(rows[0]);
      }
      addresses := Seqs.Filter(store.addresses, (a: AddressRow) => a.userId == userId);
    }

    /**
     * `removeFromCart`.  The delete's `{ error }` is not read: a rejected delete keeps
     * the row but the line still leaves the list; a thrown one changes nothing.
     */
    method RemoveFromCart(itemId: string, reply: Reply)
      modifies this`cartItems, store`cart
      ensures store.cart == if reply == Written then Gateways.DeleteCartRow(old(store.cart), itemId) else old(store.cart)
      ensures cartItems == if reply == Thrown then old(cartItems) else WithoutItem(old(cartItems), itemId)
    {
      if reply == Thrown {
        return;
      }
      if reply == Written {
        store.cart := Gateways.DeleteCartRow(store.cart, itemId);
      }
      cartItems := WithoutItem(cartItems, itemId);
    }

    /**
     * `updateQuantity`: a quantity of 0 or less removes the line instead of storing it.
     * As with removal, a rejected update still changes the list and a thrown one nothing.
     */
    method UpdateQuantity(itemId: string, newQuantity: int, reply: Reply)
      modifies this`cartItems, store`cart
      ensures newQuantity <= 0 ==>
        && store.cart == (if reply == Written then Gateways.DeleteCartRow(old(store.cart), itemId) else old(store.cart))
        && cartItems == (if reply == Thrown then old(cartItems) else WithoutItem(old(cartItems), itemId))
      ensures newQuantity > 0 ==>
        && store.cart == (if reply == Written then Gateways.SetCartQuantity(old(store.cart), itemId, newQuantity) else old(store.cart))
        && cartItems == (if reply == Thrown then old(cartItems) else WithQuantity(old(cartItems), itemId, newQuantity))
      ensures ItemsPositive(old(cartItems)) ==> ItemsPositive(cartItems)
    {
      if ItemsPositive(cartItems) {
        QuantityChangeKeepsPositive(cartItems, itemId, newQuantity);
      }
      if newQuantity <= 0 {
        RemoveFromCart(itemId, reply);
        return;
      }
      if reply == Thrown {
        return;
      }
      if reply == Written {
        store.cart := Gateways.SetCartQuantity(store.cart, itemId, newQuantity);
      }
      cartItems := WithQuantity(cartItems, itemId, newQuantity);
    }

    /**
     * `handleRazorpayPayment`: behind the profile gate, insert one completed and paid
     * order, its items, clear the user's cart and add one unread notification.
     * `orderFails` is the order insert returning an error; the later writes are not checked.
     */
    method HandleRazorpayPayment(orderFails: bool, render: real -> string) returns (effect: Effect)
      modifies this`cartItems, store`orders, store`orderItems, store`cart, store`notifications, store`nextId
      ensures !ProfileComplete(profile, addresses) ==>
        effect == Toast(CompleteProfileMessage, Warning) && unchanged(this) && unchanged(store)
      ensures ProfileComplete(profile, addresses) && orderFails ==>
        effect == Toast(PaymentFailedMessage, Error) && unchanged(this) && unchanged(store)
      ensures ProfileComplete(profile, addresses) && !orderFails ==>
        var total := TotalPrice(old(cartItems));
        var orderId := RowId(old(store.nextId));
        && store.orders == old(store.orders) + [OrderRow(orderId, userId, total, "completed", Some("razorpay"), "paid")]
        && store.orderItems == old(store.orderItems) + OrderItemsFor(old(cartItems), orderId)
        && store.cart == CartWithoutUser(old(store.cart), userId)
        && DraftsOf(store.notifications) ==
             old(DraftsOf(store.notifications)) + [NotificationDraft(userId, OrderPlacedTitle, OrderPlacedMessage(total, render), false)]
        && cartItems == []
        && effect == Toast(PaymentSuccessMessage, Success)
    {
      if !ProfileComplete(profile, addresses) {
        return Toast(CompleteProfileMessage, Warning);
      }
      if orderFails {
        return Toast(PaymentFailedMessage, Error);
      }
      var total := TotalPrice(cartItems);
      var orderId := store.NewId();
      store.orders := store.orders + [OrderRow(orderId, userId, total, "completed", Some("razorpay"), "paid")];
      store.orderItems := store.orderItems + OrderItemsFor(cartItems, orderId);
      store.cart := CartWithoutUser(store.cart, userId);
      store.InsertNotifications([NotificationDraft(userId, OrderPlacedTitle, OrderPlacedMessage(total, render), false)]);
      cartItems := [];
      effect := Toast(PaymentSuccessMessage, Success);
    }
  }
}
