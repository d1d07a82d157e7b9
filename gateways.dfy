/**
 * The two table writes that several pages repeat: add-to-cart (read the
 * (user, product) row, then bump it or insert quantity 1) and the wishlist
 * like/unlike pair.
 */
module Gateways {

  import opened Types
  import Seqs
  import opened Backend

  /** The product embedded in a row by `product:products(*)`: the first with that id. */
  function ProductById(products: seq<Product>, productId: string): (r: Option<Product>)
    ensures r.Some? ==> r.value in products && r.value.productId == productId
    ensures r.None? ==> forall i :: 0 <= i < |products| ==> products[i].productId != productId
  {
    if products == [] then None
    else if products[0].productId == productId then Some(products[0])
    else ProductById(products[1..], productId)
  }

  /** The `cart` rows selected by `.eq('user_id', u).eq('product_id', p)`. */
  function CartRowsFor(cart: seq<CartRow>, u: string, p: string): seq<CartRow>
  {
    Seqs.Filter(cart, (r: CartRow) => r.userId == u && r.productId == p)
  }

  /** `.single()` on that selection: the row when exactly one matches, otherwise no data. */
  function SingleCartRow(cart: seq<CartRow>, u: string, p: string): (r: Option<CartRow>)
    ensures r.Some? <==> |CartRowsFor(cart, u, p)| == 1
    ensures r.Some? ==> r.value in cart && r.value.userId == u && r.value.productId == p
  {
    var rows := CartRowsFor(cart, u, p);
    if |rows| == 1 then Some(rows[0]) else None
  }

  /** `from('cart').update({ quantity: q }).eq('id', id)`. */
  function SetCartQuantity(cart: seq<CartRow>, id: string, q: int): seq<CartRow>
  {
    Seqs.Map(cart, (r: CartRow) => if r.id == id then r.(quantity := q) else r)
  }

  /** `from('cart').delete().eq('id', id)`. */
  function DeleteCartRow(cart: seq<CartRow>, id: string): seq<CartRow>
  {
    Seqs.Filter(cart, (r: CartRow) => r.id != id)
  }

  /** The add-to-cart handler's writes: bump the single existing row, otherwise insert quantity 1. */
  function AddToCartRows(cart: seq<CartRow>, u: string, p: string, newId: string): seq<CartRow>
  {
    match SingleCartRow(cart, u, p)
    case Some(row) => SetCartQuantity(cart, row.id, row.quantity + 1)
    case None => cart + [CartRow(newId, u, p, 1)]
  }

  /** Every row of the cart has a positive quantity. */
  predicate QuantitiesPositive(cart: seq<CartRow>)
  {
    forall i :: 0 <= i < |cart| ==> cart[i].quantity >= 1
  }

  /** No two rows share an id. */
  predicate UniqueIds(cart: seq<CartRow>)
  {
    forall i, j :: 0 <= i < j < |cart| ==> cart[i].id != cart[j].id
  }

  /** Without a single existing (user, product) row, exactly one row with quantity 1 is appended. */
  lemma AddToCartInserts(cart: seq<CartRow>, u: string, p: string, newId: string)
    requires |CartRowsFor(cart, u, p)| != 1
    ensures AddToCartRows(cart, u, p, newId) == cart + [CartRow(newId, u, p, 1)]
    ensures |AddToCartRows(cart, u, p, newId)| == |cart| + 1
  {
  }

  /**
   * With a single existing (user, product) row, that row's quantity rises by exactly 1,
   * the length is kept, and every row with another id is unchanged.
   */
  lemma AddToCartIncrements(cart: seq<CartRow>, u: string, p: string, newId: string, k: nat)
    requires k < |cart| && cart[k].userId == u && cart[k].productId == p
    requires |CartRowsFor(cart, u, p)| == 1
    requires UniqueIds(cart)
    ensures |AddToCartRows(cart, u, p, newId)| == |cart|
    ensures AddToCartRows(cart, u, p, newId)[k] == cart[k].(quantity := cart[k].quantity + 1)
    ensures forall i :: 0 <= i < |cart| && i != k ==> AddToCartRows(cart, u, p, newId)[i] == cart[i]
  {
    var rows := CartRowsFor(cart, u, p);
    assert cart[k] in rows;
    var row := rows[0];
    assert row == cart[k];
  }

  /** Add-to-cart keeps every stored quantity at least 1. */
  lemma AddToCartKeepsQuantitiesPositive(cart: seq<CartRow>, u: string, p: string, newId: string)
    requires QuantitiesPositive(cart)
    ensures QuantitiesPositive(AddToCartRows(cart, u, p, newId))
  {
    match SingleCartRow(cart, u, p)
    case Some(row) =>
      assert row.quantity >= 1;
    case None =>
  }

  /** Two add-to-cart calls for a product not yet in the cart leave one row with quantity 2. */
  lemma AddToCartTwice(cart: seq<CartRow>, u: string, p: string, id1: string, id2: string)
    requires CartRowsFor(cart, u, p) == []
    requires forall i :: 0 <= i < |cart| ==> cart[i].id != id1
    ensures AddToCartRows(AddToCartRows(cart, u, p, id1), u, p, id2) == cart + [CartRow(id1, u, p, 2)]
  {
    var row := CartRow(id1, u, p, 1);
    var once := cart + [row];
    assert AddToCartRows(cart, u, p, id1) == once;
    Seqs.FilterAppend(cart, [row], (r: CartRow) => r.userId == u && r.productId == p);
    assert CartRowsFor(once, u, p) == [row];
    var twice := SetCartQuantity(once, id1, 2);
    assert forall i :: 0 <= i < |cart| ==> twice[i] == cart[i];
    assert twice == cart + [CartRow(id1, u, p, 2)];
  }

  /** The `wishlist` rows selected by `.eq('user_id', u).eq('product_id', p)`. */
  function WishlistRowsFor(w: seq<WishlistRow>, u: string, p: string): seq<WishlistRow>
  {
    Seqs.Filter(w, (r: WishlistRow) => r.userId == u && r.productId == p)
  }

  /** `from('wishlist').insert({ user_id: u, product_id: p })`. */
  function LikeRows(w: seq<WishlistRow>, u: string, p: string, newId: string): seq<WishlistRow>
  {
    w + [WishlistRow(newId, u, p)]
  }

  /** `from('wishlist').delete().eq('user_id', u).eq('product_id', p)`. */
  function UnlikeRows(w: seq<WishlistRow>, u: string, p: string): seq<WishlistRow>
  {
    Seqs.Filter(w, (r: WishlistRow) => !(r.userId == u && r.productId == p))
  }

  /** Liking adds exactly one (user, product) row and leaves the others in place. */
  lemma LikeAddsOneRow(w: seq<WishlistRow>, u: string, p: string, newId: string)
    ensures |WishlistRowsFor(LikeRows(w, u, p, newId), u, p)| == |WishlistRowsFor(w, u, p)| + 1
    ensures LikeRows(w, u, p, newId)[..|w|] == w
  {
    Seqs.FilterAppend(w, [WishlistRow(newId, u, p)], (r: WishlistRow) => r.userId == u && r.productId == p);
  }

  /** Unliking removes every (user, product) row and keeps all other rows in their order. */
  lemma UnlikeRemovesAllRows(w: seq<WishlistRow>, u: string, p: string)
    ensures WishlistRowsFor(UnlikeRows(w, u, p), u, p) == []
    ensures Seqs.IsSubsequence(UnlikeRows(w, u, p), w)
    ensures forall i :: 0 <= i < |w| && !(w[i].userId == u && w[i].productId == p) ==> w[i] in UnlikeRows(w, u, p)
  {
    var r := UnlikeRows(w, u, p);
    Seqs.FilterDropsAll(r, (x: WishlistRow) => x.userId == u && x.productId == p);
    Seqs.FilterIsSubsequence(w, (x: WishlistRow) => !(x.userId == u && x.productId == p));
  }

  /** Liking then unliking a product that had no row restores the wishlist table. */
  lemma LikeThenUnlikeRestores(w: seq<WishlistRow>, u: string, p: string, newId: string)
    requires WishlistRowsFor(w, u, p) == []
    ensures UnlikeRows(LikeRows(w, u, p, newId), u, p) == w
  {
    var keep := (r: WishlistRow) => !(r.userId == u && r.productId == p);
    Seqs.FilterAppend(w, [WishlistRow(newId, u, p)], keep);
    Seqs.FilterKeepsAll(w, keep);
  }

  /** The add-to-cart writes against the store; the server id is used only by an insert. */
  method AddToCart(store: Store, u: string, p: string)
    modifies store`cart, store`nextId
    ensures store.cart == AddToCartRows(old(store.cart), u, p, RowId(old(store.nextId)))
    ensures store.nextId == old(store.nextId) + (if SingleCartRow(old(store.cart), u, p).Some? then 0 else 1)
  {
    var cart := store.cart;
    if SingleCartRow(cart, u, p).Some? {
      store.cart := AddToCartRows(cart, u, p, RowId(store.nextId));
    } else {
      var id := store.NewId();
      store.cart := AddToCartRows(cart, u, p, id);
    }
  }

  /** The wishlist insert against the store. */
  method Like(store: Store, u: string, p: string)
    modifies store`wishlist, store`nextId
    ensures store.wishlist == LikeRows(old(store.wishlist), u, p, RowId(old(store.nextId)))
    ensures store.nextId == old(store.nextId) + 1
  {
    var id := store.NewId();
    store.wishlist := LikeRows(store.wishlist, u, p, id);
  }

  /** The wishlist delete against the store. */
  method Unlike(store: Store, u: string, p: string)
    modifies store`wishlist
    ensures store.wishlist == UnlikeRows(old(store.wishlist), u, p)
  {
    store.wishlist := UnlikeRows(store.wishlist, u, p);
  }
}
