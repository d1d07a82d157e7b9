/**
 * The product page: loading the product, up to four related products and the
 * heart's state, and the same like / add-to-cart handlers as the tile.
 */
module ProductDetailPage {

  import opened Types
  import opened Backend
  import Seqs
  import Gateways
  import ProductCardView

  /** `.eq('product_id', id).single()` on `products`. */
  function SingleProduct(products: seq<Product>, id: string): (r: Option<Product>)
    ensures r.Some? <==> |Seqs.Filter(products, (x: Product) => x.productId == id)| == 1
    ensures r.Some? ==> r.value in products && r.value.productId == id
  {
    var rows := Seqs.Filter(products, (x: Product) => x.productId == id);
    if |rows| == 1 then Some(rows[0]) else None
  }

  /**
   * The `.or(...)` condition: the same category, or a tag array holding every tag
   * of the viewed product (`tags.cs.{...}`).
   */
  predicate RelatedTo(x: Product, viewed: Product)
  {
    x.category == viewed.category || forall t :: t in viewed.tags ==> t in x.tags
  }

  /** `.or(...).neq('product_id', id).limit(4)`, in table order. */
  function RelatedProducts(products: seq<Product>, viewed: Product, id: string): seq<Product>
  {
    var candidates := Seqs.Filter(products, (x: Product) => x.productId != id && RelatedTo(x, viewed));
    if |candidates| <= 4 then candidates else candidates[..4]
  }

  /**
   * At most four related products, never the viewed one, each related to it, in
   * table order; all of the candidates when there are at most four.
   */
  lemma RelatedProductsProperties(products: seq<Product>, viewed: Product, id: string)
    ensures var r := RelatedProducts(products, viewed, id);
      && |r| <= 4
      && (forall i :: 0 <= i < |r| ==> r[i].productId != id && RelatedTo(r[i], viewed) && r[i] in products)
      && Seqs.IsSubsequence(r, products)
    ensures var candidates := Seqs.Filter(products, (x: Product) => x.productId != id && RelatedTo(x, viewed));
      |candidates| <= 4 ==> RelatedProducts(products, viewed, id) == candidates
  {
    var keep := (x: Product) => x.productId != id && RelatedTo(x, viewed);
    var candidates := Seqs.Filter(products, keep);
    Seqs.FilterIsSubsequence(products, keep);
    if |candidates| > 4 {
      Seqs.PrefixIsSubsequence(candidates, 4);
      Seqs.SubsequenceTransitive(candidates[..4], candidates, products);
    }
  }

  /** `setIsLiked(!!wishlistData)` after `.single()`: exactly one (user, product) row. */
  function LikedOnLoad(w: seq<WishlistRow>, u: string, p: string): bool
  {
    |Gateways.WishlistRowsFor(w, u, p)| == 1
  }

  /**
   * Starting from the loaded heart, a toggle leaves the heart equal to what a
   * reload would show, and at most one (user, product) row in the table.
   */
  lemma ToggleKeepsHeartInSync(w: seq<WishlistRow>, u: string, p: string, newId: string, liked: bool)
    requires |Gateways.WishlistRowsFor(w, u, p)| <= 1
    requires liked == LikedOnLoad(w, u, p)
    ensures var after := ProductCardView.LikeToggle(w, u, p, liked, newId);
      after.1 == LikedOnLoad(after.0, u, p) && |Gateways.WishlistRowsFor(after.0, u, p)| <= 1
  {
    if liked {
      Gateways.UnlikeRemovesAllRows(w, u, p);
    } else {
      Gateways.LikeAddsOneRow(w, u, p, newId);
    }
  }

  /** A product liked twice from a tile no longer shows a filled heart on this page. */
  lemma DuplicateLikeHidesHeart(w: seq<WishlistRow>, u: string, p: string, newId: string)
    requires |Gateways.WishlistRowsFor(w, u, p)| == 1
    ensures !LikedOnLoad(Gateways.LikeRows(w, u, p, newId), u, p)
  {
    ProductCardView.CardLikeOnLikedProductDuplicates(w, u, p, newId);
  }

  class ProductDetail {
    const store: Store
    const productId: string
    var product: Option<Product>
    var relatedProducts: seq<Product>
    var isLiked: bool
    var isAddingToCart: bool
    var loading: bool

    constructor (store: Store, productId: string)
      ensures this.store == store && this.productId == productId
      ensures product == None && relatedProducts == [] && !isLiked && !isAddingToCart && loading
    {
      this.store := store;
      this.productId := productId;
      product, relatedProducts := None, [];
      isLiked, isAddingToCart, loading := false, false, true;
    }

    /**
     * `fetchProduct`: a missing or duplicated product id stops the load with the
     * page state as it was.  Once the product is set, a failed related query
     * (`relatedFails`) throws before the related list and the heart are touched;
     * a failed wishlist read (`likedReadFails`) gives no data, so the heart loads
     * unfilled.  The heart is read only for a signed-in user.
     */
    method FetchProduct(user: Option<Identity>, relatedFails: bool, likedReadFails: bool)
      modifies this`product, this`relatedProducts, this`isLiked, this`loading
      ensures !loading
      ensures var found := SingleProduct(store.products, productId);
        && (found.None? ==> product == old(product) && relatedProducts == old(relatedProducts) && isLiked == old(isLiked))
        && (found.Some? ==> product == found)
        && (found.Some? && relatedFails ==> relatedProducts == old(relatedProducts) && isLiked == old(isLiked))
        && (found.Some? && !relatedFails ==>
              && relatedProducts == RelatedProducts(store.products, found.value, productId)
              && isLiked == if user.Some? then !likedReadFails && LikedOnLoad(store.wishlist, user.value.id, productId) else old(isLiked))
    {
      var found := SingleProduct(store.products, productId);
      if found.Some? {
        product := found;
        if !relatedFails {
          relatedProducts := RelatedProducts(store.products, found.value, productId);
          if user.Some? {
            isLiked := !likedReadFails && LikedOnLoad(store.wishlist, user.value.id, productId);
          }
        }
      }
      loading := false;
    }

    /** `handleLikeClick`, the same toggle and the same three outcomes as the tile's, on this page's heart. */
    method HandleLikeClick(user: Option<Identity>, reply: Reply) returns (effect: Effect)
      modifies this`isLiked, store`wishlist, store`nextId
      ensures user.None? ==> effect == Redirect(SignInRoute) && unchanged(this) && unchanged(store)
      ensures user.Some? && reply == Thrown ==>
        effect == Toast(ProductCardView.WishlistError, Error) && unchanged(this) && unchanged(store)
      ensures user.Some? && reply == Rejected ==>
        isLiked == !old(isLiked) && effect == ProductCardView.LikeToast(old(isLiked)) && unchanged(store)
      ensures user.Some? && reply == Written ==>
        && (store.wishlist, isLiked) ==
             ProductCardView.LikeToggle(old(store.wishlist), user.value.id, productId, old(isLiked), RowId(old(store.nextId)))
        && effect == ProductCardView.LikeToast(old(isLiked))
        && store.nextId == old(store.nextId) + (if old(isLiked) then 0 else 1)
    {
      if user.None? {
        return Redirect(SignInRoute);
      }
      if reply == Thrown {
        return Toast(ProductCardView.WishlistError, Error);
      }
      var wasLiked := isLiked;
      if isLiked {
        if reply == Written {
          Gateways.Unlike(store, user.value.id, productId);
        }
        isLiked := false;
      } else {
        if reply == Written {
          Gateways.Like(store, user.value.id, productId);
        }
        isLiked := true;
      }
      effect := ProductCardView.LikeToast(wasLiked);
    }

    /** `handleAddToCart`, as on the tile, for the page's product id. */
    method HandleAddToCart(user: Option<Identity>, reply: Reply) returns (effect: Effect)
      modifies this`isAddingToCart, store`cart, store`nextId
      ensures user.None? ==> effect == Redirect(SignInRoute) && unchanged(this) && unchanged(store)
      ensures user.Some? ==> !isAddingToCart
      ensures user.Some? && reply == Thrown ==> effect == Toast(ProductCardView.CartError, Error) && unchanged(store)
      ensures user.Some? && reply == Rejected ==> effect == Toast(ProductCardView.AddedToCart, Success) && unchanged(store)
      ensures user.Some? && reply == Written ==>
        && store.cart == Gateways.AddToCartRows(old(store.cart), user.value.id, productId, RowId(old(store.nextId)))
        && store.nextId == old(store.nextId) + (if Gateways.SingleCartRow(old(store.cart), user.value.id, productId).Some? then 0 else 1)
        && effect == Toast(ProductCardView.AddedToCart, Success)
    {
      if user.None? {
        return Redirect(SignInRoute);
      }
      isAddingToCart := true;
      if reply == Thrown {
        effect := Toast(ProductCardView.CartError, Error);
      } else {
        if reply == Written {
          Gateways.AddToCart(store, user.value.id, productId);
        }
        effect := Toast(ProductCardView.AddedToCart, Success);
      }
      isAddingToCart := false;
    }
  }
}
