/**
 * The product tile shown in every listing: the heart (wishlist toggle) and the
 * add-to-cart button.  The tile's heart always starts unfilled, whatever the
 * wishlist table holds.
 */
module ProductCardView {

  import opened Types
  import opened Backend
  import Gateways

  const AddedToWishlist := "Added to wishlist"
  const RemovedFromWishlist := "Removed from wishlist"
  const WishlistError := "Error updating wishlist"
  const AddedToCart := "Added to cart successfully!"
  const CartError := "Error adding to cart"

  /** The toast after a toggle reports the state before the click. */
  function LikeToast(wasLiked: bool): (e: Effect)
    ensures e.Toast? && e.kind == Success
    ensures e.text == (if wasLiked then RemovedFromWishlist else AddedToWishlist)
  {
    Toast(if wasLiked then RemovedFromWishlist else AddedToWishlist, Success)
  }

  /** The wishlist table and the heart after one click on a heart in state `liked`. */
  function LikeToggle(w: seq<WishlistRow>, u: string, p: string, liked: bool, newId: string): (seq<WishlistRow>, bool)
  {
    if liked then (Gateways.UnlikeRows(w, u, p), false) else (Gateways.LikeRows(w, u, p, newId), true)
  }

  /** Two clicks from an unfilled heart with no row restore both the table and the heart. */
  lemma ToggleTwiceRestores(w: seq<WishlistRow>, u: string, p: string, id1: string, id2: string)
    requires Gateways.WishlistRowsFor(w, u, p) == []
    ensures var once := LikeToggle(w, u, p, false, id1);
      LikeToggle(once.0, u, p, once.1, id2) == (w, false)
  {
    Gateways.LikeThenUnlikeRestores(w, u, p, id1);
  }

  /**
   * A heart click on a tile, which starts unfilled, when the product is already
   * in the wishlist: a second (user, product) row is inserted.
   */
  lemma CardLikeOnLikedProductDuplicates(w: seq<WishlistRow>, u: string, p: string, newId: string)
    requires |Gateways.WishlistRowsFor(w, u, p)| == 1
    ensures |Gateways.WishlistRowsFor(Gateways.LikeRows(w, u, p, newId), u, p)| == 2
  {
    Gateways.LikeAddsOneRow(w, u, p, newId);
  }

  class ProductCard {
    const store: Store
    const product: Product
    var isLiked: bool
    var isAddingToCart: bool

    constructor (store: Store, product: Product)
      ensures this.store == store && this.product == product
      ensures !isLiked && !isAddingToCart
    {
      this.store := store;
      this.product := product;
      isLiked, isAddingToCart := false, false;
    }

    /**
     * `handleLikeClick`: without a user, go to sign-in; otherwise delete the
     * (user, product) rows when filled, insert one when not, and flip the heart.
     * The write's `{ error }` is not read: a rejected write leaves the table but
     * still flips the heart and shows the success toast; a thrown one shows the
     * error toast and changes nothing.
     */
    method HandleLikeClick(user: Option<Identity>, reply: Reply) returns (effect: Effect)
      modifies this`isLiked, store`wishlist, store`nextId
      ensures user.None? ==> effect == Redirect(SignInRoute) && unchanged(this) && unchanged(store)
      ensures user.Some? && reply == Thrown ==> effect == Toast(WishlistError, Error) && unchanged(this) && unchanged(store)
      ensures user.Some? && reply == Rejected ==>
        isLiked == !old(isLiked) && effect == LikeToast(old(isLiked)) && unchanged(store)
      ensures user.Some? && reply == Written ==>
        && (store.wishlist, isLiked) ==
             LikeToggle(old(store.wishlist), user.value.id, product.productId, old(isLiked), RowId(old(store.nextId)))
        && effect == LikeToast(old(isLiked))
        && store.nextId == old(store.nextId) + (if old(isLiked) then 0 else 1)
    {
      if user.None? {
        return Redirect(SignInRoute);
      }
      if reply == Thrown {
        return Toast(WishlistError, Error);
      }
      var wasLiked := isLiked;
      if isLiked {
        if reply == Written {
          Gateways.Unlike(store, user.value.id, product.productId);
        }
        isLiked := false;
      } else {
        if reply == Written {
          Gateways.Like(store, user.value.id, product.productId);
        }
        isLiked := true;
      }
      effect := LikeToast(wasLiked);
    }

    /**
     * `handleAddToCart`: without a user, go to sign-in; otherwise bump or insert
     * the cart row.  The busy flag is cleared again on every path that sets it.
     * A rejected write leaves the table but still shows the success toast.
     */
    method HandleAddToCart(user: Option<Identity>, reply: Reply) returns (effect: Effect)
      modifies this`isAddingToCart, store`cart, store`nextId
      ensures user.None? ==> effect == Redirect(SignInRoute) && unchanged(this) && unchanged(store)
      ensures user.Some? ==> !isAddingToCart
      ensures user.Some? && reply == Thrown ==> effect == Toast(CartError, Error) && unchanged(store)
      ensures user.Some? && reply == Rejected ==> effect == Toast(AddedToCart, Success) && unchanged(store)
      ensures user.Some? && reply == Written ==>
        && store.cart == Gateways.AddToCartRows(old(store.cart), user.value.id, product.productId, RowId(old(store.nextId)))
        && store.nextId == old(store.nextId) + (if Gateways.SingleCartRow(old(store.cart), user.value.id, product.productId).Some? then 0 else 1)
        && effect == Toast(AddedToCart, Success)
    {
      if user.None? {
        return Redirect(SignInRoute);
      }
      isAddingToCart := true;
      if reply == Thrown {
        effect := Toast(CartError, Error);
      } else {
        if reply == Written {
          Gateways.AddToCart(store, user.value.id, product.productId);
        }
        effect := Toast(AddedToCart, Success);
      }
      isAddingToCart := false;
    }
  }
}
