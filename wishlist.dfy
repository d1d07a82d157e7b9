/**
 * The wishlist page: the user's liked products, removal by row id, and the
 * add-to-cart button that only active products enable.
 */
module WishlistPage {

  import opened Types
  import opened Backend
  import Seqs
  import Gateways

  /** A wishlist row joined with its product. */
  datatype WishlistItem = WishlistItem(id: string, userId: string, productId: string, product: Option<Product>)

  const RemovedMessage := "Removed from wishlist"
  const RemoveFailedMessage := "Failed to remove item"
  const AddedMessage := "Product added to cart!"
  const AddFailedMessage := "Failed to add product."

  /** The `wishlist` row behind an entry, without its joined product. */
  function RowOf(item: WishlistItem): WishlistRow
  {
    WishlistRow(item.id, item.userId, item.productId)
  }

  /** The `wishlist` rows behind the entries, in order (a `map` of `RowOf`). */
  function RowsOfEntries(items: seq<WishlistItem>): (r: seq<WishlistRow>)
    ensures |r| == |items|
    ensures forall i :: 0 <= i < |items| ==> r[i] == RowOf(items[i])
  {
    if items == [] then [] else [RowOf(items[0])] + RowsOfEntries(items[1..])
  }

  /**
   * The rows of a user's wishlist, each joined with its product: exactly the
   * user's rows, every one of them, in table order.
   */
  function JoinedWishlist(w: seq<WishlistRow>, products: seq<Product>, u: string): (r: seq<WishlistItem>)
    ensures RowsOfEntries(r) == Seqs.Filter(w, (row: WishlistRow) => row.userId == u)
    ensures Seqs.IsSubsequence(RowsOfEntries(r), w)
    ensures forall i :: 0 <= i < |w| && w[i].userId == u ==> w[i] in RowsOfEntries(r)
    ensures forall i :: 0 <= i < |r| ==>
      r[i].userId == u && r[i].product == Gateways.ProductById(products, r[i].productId)
  {
    var rows := Seqs.Filter(w, (row: WishlistRow) => row.userId == u);
    Seqs.FilterIsSubsequence(w, (row: WishlistRow) => row.userId == u);
    var r := Seqs.Map(rows, (row: WishlistRow) => WishlistItem(row.id, row.userId, row.productId, Gateways.ProductById(products, row.productId)));
    assert RowsOfEntries(r) == rows;
    r
  }

  /** `from('wishlist').delete().eq('id', id)`. */
  function DeleteWishlistRow(w: seq<WishlistRow>, id: string): seq<WishlistRow>
  {
    Seqs.Filter(w, (row: WishlistRow) => row.id != id)
  }

  /** `prev.filter(item => item.id !== itemId)`. */
  function WithoutEntry(items: seq<WishlistItem>, itemId: string): seq<WishlistItem>
  {
    Seqs.Filter(items, (item: WishlistItem) => item.id != itemId)
  }

  /** Removal drops exactly the entries with that id and keeps the rest in order. */
  lemma RemoveEntryKeepsOthers(items: seq<WishlistItem>, itemId: string)
    ensures Seqs.IsSubsequence(WithoutEntry(items, itemId), items)
    ensures forall i :: 0 <= i < |WithoutEntry(items, itemId)| ==> WithoutEntry(items, itemId)[i].id != itemId
    ensures forall i :: 0 <= i < |items| && items[i].id != itemId ==> items[i] in WithoutEntry(items, itemId)
    ensures (forall i :: 0 <= i < |items| ==> items[i].id != itemId) ==> WithoutEntry(items, itemId) == items
  {
    var keep := (item: WishlistItem) => item.id != itemId;
    Seqs.FilterIsSubsequence(items, keep);
    if forall i :: 0 <= i < |items| ==> items[i].id != itemId {
      Seqs.FilterKeepsAll(items, keep);
    }
  }

  /** `item.product?.is_active`: the cart button is live only for a joined, active product. */
  predicate CartEnabled(item: WishlistItem)
  {
    item.product.Some? && item.product.value.isActive
  }

  class Wishlist {
    const store: Store
    const userId: string
    var wishlistItems: seq<WishlistItem>
    var addingToCart: Option<string>

    constructor (store: Store, userId: string)
      ensures this.store == store && this.userId == userId
      ensures wishlistItems == [] && addingToCart == None
    {
      this.store := store;
      this.userId := userId;
      wishlistItems, addingToCart := [], None;
    }

    /** `fetchWishlist`: a failed read keeps the list as it was. */
    method FetchWishlist(readFails: bool)
      modifies this`wishlistItems
      ensures wishlistItems == if readFails then old(wishlistItems) else JoinedWishlist(store.wishlist, store.products, userId)
    {
      if !readFails {
        wishlistItems := JoinedWishlist(store.wishlist, store.products, userId);
      }
    }

    /**
     * `removeFromWishlist`.  The delete's `{ error }` is not read: a rejected delete
     * keeps the row but still drops the entry and shows the success popup; a thrown
     * one shows the failure popup and changes nothing.
     */
    method RemoveFromWishlist(itemId: string, reply: Reply) returns (popup: Effect)
      modifies this`wishlistItems, store`wishlist
      ensures reply == Thrown ==> popup == Toast(RemoveFailedMessage, Error) && unchanged(this) && unchanged(store)
      ensures reply != Thrown ==>
        && store.wishlist == (if reply == Written then DeleteWishlistRow(old(store.wishlist), itemId) else old(store.wishlist))
        && wishlistItems == WithoutEntry(old(wishlistItems), itemId)
        && popup == Toast(RemovedMessage, Success)
    {
      if reply == Thrown {
        return Toast(RemoveFailedMessage, Error);
      }
      if reply == Written {
        store.wishlist := DeleteWishlistRow(store.wishlist, itemId);
      }
      wishlistItems := WithoutEntry(wishlistItems, itemId);
      popup := Toast(RemovedMessage, Success);
    }

    /**
     * `addToCart`: the upsert-increment, with the busy marker reset on every outcome.
     * A rejected write leaves the table but still shows the success popup.
     */
    method AddToCart(productId: string, reply: Reply) returns (popup: Effect)
      modifies this`addingToCart, store`cart, store`nextId
      ensures addingToCart == None
      ensures reply == Thrown ==> popup == Toast(AddFailedMessage, Error) && unchanged(store)
      ensures reply == Rejected ==> popup == Toast(AddedMessage, Success) && unchanged(store)
      ensures reply == Written ==>
        && store.cart == Gateways.AddToCartRows(old(store.cart), userId, productId, RowId(old(store.nextId)))
        && store.nextId == old(store.nextId) + (if Gateways.SingleCartRow(old(store.cart), userId, productId).Some? then 0 else 1)
        && popup == Toast(AddedMessage, Success)
    {
      addingToCart := Some(productId);
      if reply == Thrown {
        popup := Toast(AddFailedMessage, Error);
      } else {
        if reply == Written {
          Gateways.AddToCart(store, userId, productId);
        }
        popup := Toast(AddedMessage, Success);
      }
      addingToCart := None;
    }

    /** The cart button's click: nothing happens for a missing or inactive product. */
    method ClickCart(item: WishlistItem, reply: Reply) returns (popup: Effect)
      modifies this`addingToCart, store`cart, store`nextId
      ensures !CartEnabled(item) ==> popup == NoEffect && unchanged(this) && unchanged(store)
      ensures CartEnabled(item) ==>
        && addingToCart == None
        && (reply == Thrown ==> popup == Toast(AddFailedMessage, Error) && unchanged(store))
        && (reply == Rejected ==> popup == Toast(AddedMessage, Success) && unchanged(store))
        && (reply == Written ==>
              store.cart == Gateways.AddToCartRows(old(store.cart), userId, item.productId, RowId(old(store.nextId))) &&
              store.nextId == old(store.nextId) + (if Gateways.SingleCartRow(old(store.cart), userId, item.productId).Some? then 0 else 1) &&
              popup == Toast(AddedMessage, Success))
    {
      if !CartEnabled(item) {
        return NoEffect;
      }
      popup := AddToCart(item.productId, reply);
    }
  }
}
