/**
 * The admin product list: filtering, the category list, tag parsing, adding a
 * product (with the new-product notification fan-out), editing it, and
 * switching it on and off.
 */
module AdminProductsPage {

  import opened Types
  import opened Backend
  import Seqs
  import Text
  import ProductFormView

  /** `productStatusFilter`. */
  datatype StatusFilter = AllStatuses | ActiveOnly | InactiveOnly

  /** The text query matches the name, the description or some tag, case-insensitively. */
  predicate MatchesQuery(p: Product, query: string)
  {
    var q := Text.Lower(query);
    Text.Contains(Text.Lower(p.name), q) || Text.Contains(Text.Lower(p.description), q) ||
    exists i :: 0 <= i < |p.tags| && Text.Contains(Text.Lower(p.tags[i]), q)
  }

  /** The predicate of `filteredProducts`. */
  predicate ProductShown(p: Product, status: StatusFilter, category: string, query: string)
  {
    && !(status == ActiveOnly && !p.isActive)
    && !(status == InactiveOnly && p.isActive)
    && !(category != "all" && p.category != category)
    && (Text.Trim(query) != "" ==> MatchesQuery(p, query))
  }

  /** `filteredProducts`. */
  function FilterProducts(products: seq<Product>, status: StatusFilter, category: string, query: string): seq<Product>
  {
    Seqs.Filter(products, (p: Product) => ProductShown(p, status, category, query))
  }

  /** The filtered list is an order-preserving subsequence and keeps every product that passes. */
  lemma FilterProductsIsSubsequence(products: seq<Product>, status: StatusFilter, category: string, query: string)
    ensures Seqs.IsSubsequence(FilterProducts(products, status, category, query), products)
    ensures forall i :: 0 <= i < |products| && ProductShown(products[i], status, category, query) ==>
      products[i] in FilterProducts(products, status, category, query)
  {
    Seqs.FilterIsSubsequence(products, (p: Product) => ProductShown(p, status, category, query));
  }

  /** Every kept product satisfies the status, the category and the query. */
  lemma FilterProductsConstraints(products: seq<Product>, status: StatusFilter, category: string, query: string)
    ensures forall p :: p in FilterProducts(products, status, category, query) ==>
      && (status == ActiveOnly ==> p.isActive)
      && (status == InactiveOnly ==> !p.isActive)
      && (category != "all" ==> p.category == category)
      && (!Text.IsBlank(query) ==> MatchesQuery(p, query))
  {
    var r := FilterProducts(products, status, category, query);
    forall p | p in r
      ensures && (status == ActiveOnly ==> p.isActive)
              && (status == InactiveOnly ==> !p.isActive)
              && (category != "all" ==> p.category == category)
              && (!Text.IsBlank(query) ==> MatchesQuery(p, query))
    {
      var i :| 0 <= i < |r| && r[i] == p;
      ShownProductPasses(p, status, category, query);
    }
  }

  /** What `ProductShown` asks of one product, with the blank test spelled out. */
  lemma ShownProductPasses(p: Product, status: StatusFilter, category: string, query: string)
    requires ProductShown(p, status, category, query)
    ensures status == ActiveOnly ==> p.isActive
    ensures status == InactiveOnly ==> !p.isActive
    ensures category != "all" ==> p.category == category
    ensures !Text.IsBlank(query) ==> MatchesQuery(p, query)
  {
    Text.TrimProperties(query);
  }

  /** With no status, no category and a blank query, the whole list is shown. */
  lemma FilterProductsNoFilter(products: seq<Product>, query: string)
    requires Text.IsBlank(query)
    ensures FilterProducts(products, AllStatuses, "all", query) == products
  {
    Text.TrimProperties(query);
    Seqs.FilterKeepsAll(products, (p: Product) => ProductShown(p, AllStatuses, "all", query));
  }

  /** `products.map(p => p.category)`. */
  function CategoryColumn(products: seq<Product>): (r: seq<string>)
    ensures |r| == |products| && forall i :: 0 <= i < |products| ==> r[i] == products[i].category
  {
    Seqs.Map(products, (p: Product) => p.category)
  }

  /** `Array.from(new Set(products.map(p => p.category)))`. */
  function Categories(products: seq<Product>): seq<string>
  {
    Seqs.Dedup(CategoryColumn(products))
  }

  /** Each category of the products is listed once, in the order of its first product. */
  lemma CategoriesProperties(products: seq<Product>)
    ensures Seqs.NoDuplicates(Categories(products))
    ensures forall c :: c in Categories(products) <==> c in CategoryColumn(products)
    ensures forall c :: c in Categories(products) <==> exists i :: 0 <= i < |products| && products[i].category == c
    ensures forall i, j :: 0 <= i < j < |Categories(products)| ==>
      Seqs.FirstIndex(CategoryColumn(products), Categories(products)[i]) <
      Seqs.FirstIndex(CategoryColumn(products), Categories(products)[j])
  {
    var cs := CategoryColumn(products);
    Seqs.DedupProperties(cs);
    forall c ensures c in cs <==> exists i :: 0 <= i < |products| && products[i].category == c {
      if c in cs {
        var i :| 0 <= i < |cs| && cs[i] == c;
        assert products[i].category == c;
      }
    }
  }

  /** `tags.split(',').map(tag => tag.trim())`. */
  function ParseTags(s: string): (r: seq<string>)
    ensures |r| >= 1
  {
    Seqs.Map(Text.Split(s, ','), (t: string) => Text.Trim(t))
  }

  /** One tag per comma-delimited piece, each trimmed. */
  lemma ParseTagsPieces(s: string)
    ensures |ParseTags(s)| == Text.Occurrences(s, ',') + 1
    ensures forall i :: 0 <= i < |ParseTags(s)| ==> Text.IsTrimmed(ParseTags(s)[i])
  {
    Text.SplitCount(s, ',');
    var pieces := Text.Split(s, ',');
    var r := ParseTags(s);
    forall i | 0 <= i < |r| ensures Text.IsTrimmed(r[i]) {
      assert r[i] == Text.Trim(pieces[i]);
      Text.TrimProperties(pieces[i]);
    }
  }

  /** Tags fit for the round trip: non-empty list, no commas, no surrounding spaces. */
  predicate TagsRoundTrippable(tags: seq<string>)
  {
    tags != [] && forall i :: 0 <= i < |tags| ==> ',' !in tags[i] && Text.IsTrimmed(tags[i])
  }

  /** `join(', ')` split at commas: the first tag, then each later tag behind its space. */
  lemma {:induction false} SplitShownTags(tags: seq<string>)
    requires TagsRoundTrippable(tags)
    ensures Text.Split(ProductFormView.ShowTags(tags), ',') == [tags[0]] + Seqs.Map(tags[1..], (t: string) => " " + t)
    decreases |tags|
  {
    var sp := (t: string) => " " + t;
    if |tags| == 1 {
      Text.SplitNoSeparator(tags[0], ',');
      assert Seqs.Map(tags[1..], sp) == [];
    } else {
      var rest := tags[1..];
      SplitShownTags(rest);
      var joinedRest := ProductFormView.ShowTags(rest);
      assert ProductFormView.ShowTags(tags) == tags[0] + [','] + (" " + joinedRest);
      Text.SplitAtSeparator(tags[0], " " + joinedRest, ',');
      Text.SplitAfterPrefix(" ", joinedRest, ',');
      assert ',' !in " ";
      var q := Text.Split(joinedRest, ',');
      assert q == [rest[0]] + Seqs.Map(rest[1..], sp);
      assert Seqs.Map(rest, sp) == [" " + rest[0]] + Seqs.Map(rest[1..], sp);
    }
  }

  /**
   * The edit form shows tags joined with ', ' and the save splits and trims them:
   * a non-empty list of comma-free trimmed tags comes back unchanged.
   */
  lemma TagsRoundTrip(tags: seq<string>)
    requires TagsRoundTrippable(tags)
    ensures ParseTags(ProductFormView.ShowTags(tags)) == tags
  {
    var pieces := Text.Split(ProductFormView.ShowTags(tags), ',');
    SplitShownTags(tags);
    var r := ParseTags(ProductFormView.ShowTags(tags));
    assert |r| == |pieces| == |tags|;
    forall i | 0 <= i < |tags| ensures r[i] == tags[i] {
      ShownPieceTrims(tags, pieces, i);
    }
  }

  /** Trimming the i-th piece of the split form text gives back the i-th tag. */
  lemma ShownPieceTrims(tags: seq<string>, pieces: seq<string>, i: nat)
    requires TagsRoundTrippable(tags) && i < |tags|
    requires pieces == [tags[0]] + Seqs.Map(tags[1..], (t: string) => " " + t)
    ensures Text.Trim(pieces[i]) == tags[i]
  {
    if i == 0 {
      Text.TrimProperties(tags[0]);
    } else {
      assert pieces[i] == " " + tags[1..][i - 1];
      Text.TrimAfterSpace(tags[i]);
    }
  }

  /** An empty tag list is shown as '' and comes back as one empty tag. */
  lemma EmptyTagsComeBackAsOneEmptyTag()
    ensures ParseTags(ProductFormView.ShowTags([])) == [""]
  {
    assert Text.Split("", ',') == [""];
    assert Text.Trim("") == "";
  }

  const AlertTitle := " New Product Alert!"

  /** The alert text: the name and the first 100 characters of the description. */
  function AlertMessage(p: Product): string
  {
    "Check out our new product: \"" + p.name + "\" - " + Text.Take(p.description, 100) + "..."
  }

  /** One unread alert per profile, addressed to the profile's id, in profile order. */
  function AlertDrafts(profiles: seq<ProfileRow>, p: Product): (r: seq<NotificationDraft>)
    ensures |r| == |profiles|
    ensures forall i :: 0 <= i < |r| ==>
      r[i].userId == profiles[i].id && !r[i].isRead && r[i].title == AlertTitle && r[i].message == AlertMessage(p)
  {
    Seqs.Map(profiles, (pr: ProfileRow) => NotificationDraft(pr.id, AlertTitle, AlertMessage(p), false))
  }

  const BatchSize := 50

  /** The drafts of the batches whose insert succeeds; `fails(k)` says batch `k` fails. */
  function InsertedBatches(batches: seq<seq<NotificationDraft>>, fails: nat -> bool, first: nat): seq<NotificationDraft>
  {
    if batches == [] then []
    else (if fails(first) then [] else batches[0]) + InsertedBatches(batches[1..], fails, first + 1)
  }

  /** Without a failing batch the fan-out inserts every draft, in order. */
  lemma {:induction false} NoFailureInsertsAll(batches: seq<seq<NotificationDraft>>, fails: nat -> bool, first: nat)
    requires forall k :: first <= k ==> !fails(k)
    ensures InsertedBatches(batches, fails, first) == Seqs.Flatten(batches)
    decreases |batches|
  {
    if batches != [] {
      NoFailureInsertsAll(batches[1..], fails, first + 1);
    }
  }

  /**
   * A failing batch drops only its own drafts: when batch `k` alone fails, the
   * inserted alerts are all the other batches, in order.
   */
  lemma {:induction false} OnlyFailedBatchIsMissing(batches: seq<seq<NotificationDraft>>, fails: nat -> bool, first: nat, k: nat)
    requires k < |batches|
    requires forall j :: fails(j) <==> j == first + k
    ensures InsertedBatches(batches, fails, first) == Seqs.Flatten(batches[..k] + batches[k + 1..])
    decreases |batches|
  {
    if k == 0 {
      NoFailureInsertsAll(batches[1..], fails, first + 1);
      assert batches[..0] + batches[1..] == batches[1..];
    } else {
      OnlyFailedBatchIsMissing(batches[1..], fails, first + 1, k - 1);
      var rest := batches[1..][..k - 1] + batches[1..][k..];
      assert batches[..k] + batches[k + 1..] == [batches[0]] + rest;
      assert ([batches[0]] + rest)[1..] == rest;
    }
  }

  /**
   * The fan-out's batches hold 1 to 50 alerts each, concatenate to the full list,
   * number ceil(n / 50) for n profiles, and there are none without profiles.
   */
  lemma FanOutBatchShape(profiles: seq<ProfileRow>, p: Product)
    ensures var batches := Seqs.Batches(AlertDrafts(profiles, p), BatchSize);
      && Seqs.Flatten(batches) == AlertDrafts(profiles, p)
      && (forall k :: 0 <= k < |batches| ==> 1 <= |batches[k]| <= BatchSize)
      && (profiles == [] ==> batches == [])
      && (profiles != [] ==> (|batches| - 1) * BatchSize < |profiles| <= |batches| * BatchSize)
  {
    var drafts := AlertDrafts(profiles, p);
    Seqs.FlattenBatches(drafts, BatchSize);
    Seqs.BatchSizes(drafts, BatchSize);
    Seqs.BatchCount(drafts, BatchSize);
  }

  /** The fan-out for a full table of profiles, when no batch fails: one alert per profile. */
  lemma FanOutReachesEveryProfile(profiles: seq<ProfileRow>, p: Product, fails: nat -> bool)
    requires forall k :: !fails(k)
    ensures InsertedBatches(Seqs.Batches(AlertDrafts(profiles, p), BatchSize), fails, 0) == AlertDrafts(profiles, p)
  {
    NoFailureInsertsAll(Seqs.Batches(AlertDrafts(profiles, p), BatchSize), fails, 0);
    Seqs.FlattenBatches(AlertDrafts(profiles, p), BatchSize);
  }

  /** The drafts from index `i` on; none once `i` passes the end. */
  function Remaining<T>(xs: seq<T>, i: nat): seq<T>
  {
    if i <= |xs| then xs[i..] else []
  }

  lemma AppendAssociative<T>(a: seq<T>, b: seq<T>, c: seq<T>)
    ensures (a + b) + c == a + (b + c)
  {
  }

  /** One turn of the fan-out loop: the slice at `i` is batch `k`, and the rest follow. */
  lemma InsertedStep(xs: seq<NotificationDraft>, i: nat, end: nat, fails: nat -> bool, k: nat)
    requires i < |xs| && end == (if i + BatchSize <= |xs| then i + BatchSize else |xs|)
    ensures InsertedBatches(Seqs.Batches(xs[i..], BatchSize), fails, k) ==
      (if fails(k) then [] else xs[i..end]) + InsertedBatches(Seqs.Batches(xs[end..], BatchSize), fails, k + 1)
  {
    if end == |xs| {
      assert xs[end..] == [];
      assert xs[i..end] == xs[i..];
    } else {
      assert xs[i..][..BatchSize] == xs[i..end];
      assert xs[i..][BatchSize..] == xs[end..];
    }
  }

  /** The product the insert or update writes: the form's fields with parsed price and tags. */
  function ProductFromForm(id: string, f: ProductFormView.FormData, parsePrice: string -> real): (p: Product)
    ensures p.productId == id && p.tags == ParseTags(f.tags) && p.price == parsePrice(f.price)
    ensures p.name == f.name && p.description == f.description && p.imageUrl == f.imageUrl
    ensures p.tag == f.tag && p.category == f.category && p.isActive == f.isActive
  {
    Product(id, f.name, f.description, parsePrice(f.price), f.imageUrl, ParseTags(f.tags), f.tag, f.category, f.isActive)
  }

  /** `p.product_id === id ? data : p`. */
  function ReplaceProduct(products: seq<Product>, id: string, data: Product): (r: seq<Product>)
    ensures |r| == |products|
    ensures forall i :: 0 <= i < |products| ==> r[i] == if products[i].productId == id then data else products[i]
  {
    Seqs.Map(products, (p: Product) => if p.productId == id then data else p)
  }

  /** `p.product_id === id ? { ...p, is_active: v } : p`. */
  function SetActive(products: seq<Product>, id: string, v: bool): (r: seq<Product>)
    ensures |r| == |products|
    ensures forall i :: 0 <= i < |products| ==> r[i] == if products[i].productId == id then products[i].(isActive := v) else products[i]
  {
    Seqs.Map(products, (p: Product) => if p.productId == id then p.(isActive := v) else p)
  }

  /**
   * Toggling a product with the status the list shows for it, then toggling again,
   * restores the list.
   */
  lemma ToggleTwiceRestores(products: seq<Product>, id: string, current: bool)
    requires forall i :: 0 <= i < |products| && products[i].productId == id ==> products[i].isActive == current
    ensures SetActive(SetActive(products, id, !current), id, !!current) == products
  {
  }

  /** The toast after a successful toggle. */
  function ToggleMessage(newStatus: bool): string
  {
    "Product " + (if newStatus then "activated" else "deactivated") + "!"
  }

  class AdminProducts {
    const store: Store
    var products: seq<Product>
    var showAddProduct: bool
    var editingProduct: Option<Product>

    constructor (store: Store, products: seq<Product>)
      ensures this.store == store && this.products == products
      ensures !showAddProduct && editingProduct == None
    {
      this.store := store;
      this.products := products;
      showAddProduct, editingProduct := false, None;
    }

    /**
     * `createProductNotifications`: one alert per profile, inserted 50 at a time.
     * A failed profile read inserts nothing; a failed batch is skipped and the
     * loop goes on.
     */
    method CreateProductNotifications(p: Product, profilesReadFails: bool, batchFails: nat -> bool)
      modifies store`notifications, store`nextId
      ensures profilesReadFails ==> unchanged(store)
      ensures !profilesReadFails ==>
        DraftsOf(store.notifications) ==
          old(DraftsOf(store.notifications)) +
          InsertedBatches(Seqs.Batches(AlertDrafts(old(store.profiles), p), BatchSize), batchFails, 0)
      ensures store.notifications[..|old(store.notifications)|] == old(store.notifications)
    {
      if profilesReadFails {
        return;
      }
      InsertInBatches(AlertDrafts(store.profiles, p), batchFails);
    }

    /** The batching loop: slices of 50 at indices 0, 50, 100, ...; a failed insert skips its slice. */
    method InsertInBatches(drafts: seq<NotificationDraft>, batchFails: nat -> bool)
      modifies store`notifications, store`nextId
      ensures DraftsOf(store.notifications) ==
        old(DraftsOf(store.notifications)) + InsertedBatches(Seqs.Batches(drafts, BatchSize), batchFails, 0)
      ensures store.notifications[..|old(store.notifications)|] == old(store.notifications)
    {
      ghost var all := InsertedBatches(Seqs.Batches(drafts, BatchSize), batchFails, 0);
      ghost var done: seq<NotificationDraft> := [];
      ghost var added: seq<NotificationRow> := [];
      assert Remaining(drafts, 0) == drafts;
      var i, k := 0, 0;
      while i < |drafts|
        invariant store.notifications == old(store.notifications) + added
        invariant DraftsOf(added) == done
        invariant done + InsertedBatches(Seqs.Batches(Remaining(drafts, i), BatchSize), batchFails, k) == all
        decreases |drafts| - i
      {
        var end := if i + BatchSize <= |drafts| then i + BatchSize else |drafts|;
        ghost var kept := if batchFails(k) then [] else drafts[i..end];
        ghost var tail := InsertedBatches(Seqs.Batches(drafts[end..], BatchSize), batchFails, k + 1);
        assert Remaining(drafts, i) == drafts[i..];
        InsertedStep(drafts, i, end, batchFails, k);
        ghost var rows := InsertUnlessFails(drafts[i..end], batchFails(k));
        AppendAssociative(done, kept, tail);
        AppendAssociative(old(store.notifications), added, rows);
        DraftsOfAppend(added, rows);
        done, added := done + kept, added + rows;
        assert Remaining(drafts, i + BatchSize) == drafts[end..];
        i, k := i + BatchSize, k + 1;
      }
      assert Remaining(drafts, i) == [];
      DraftsOfAppend(old(store.notifications), added);
    }

    /** One batch insert, whose error the loop ignores; `rows` are the rows it adds. */
    method InsertUnlessFails(batch: seq<NotificationDraft>, fails: bool) returns (ghost rows: seq<NotificationRow>)
      modifies store`notifications, store`nextId
      ensures store.notifications == old(store.notifications) + rows
      ensures DraftsOf(rows) == if fails then [] else batch
    {
      rows := [];
      if !fails {
        rows := Stamp(batch, store.nextId);
        store.InsertNotifications(batch);
      }
    }

    /**
     * `handleAddProduct`: insert the product, run the fan-out (whose failures never
     * reach this handler), then put the product at the head of the list.
     */
    method HandleAddProduct(f: ProductFormView.FormData, parsePrice: string -> real,
                            insertFails: bool, profilesReadFails: bool, batchFails: nat -> bool)
      returns (effect: Effect)
      modifies this`products, this`showAddProduct, store`products, store`notifications, store`nextId
      ensures insertFails ==> effect == Toast("Failed to add product", Error) && unchanged(this) && unchanged(store)
      ensures !insertFails ==>
        var added := ProductFromForm(RowId(old(store.nextId)), f, parsePrice);
        && store.products == old(store.products) + [added]
        && products == [added] + old(products)
        && !showAddProduct
        && effect == Toast("Product added successfully!", Success)
        && (profilesReadFails ==> store.notifications == old(store.notifications))
        && (!profilesReadFails ==>
              DraftsOf(store.notifications) ==
                old(DraftsOf(store.notifications)) +
                InsertedBatches(Seqs.Batches(AlertDrafts(old(store.profiles), added), BatchSize), batchFails, 0))
    {
      if insertFails {
        return Toast("Failed to add product", Error);
      }
      var id := store.NewId();
      var added := ProductFromForm(id, f, parsePrice);
      store.products := store.products + [added];
      CreateProductNotifications(added, profilesReadFails, batchFails);
      products := [added] + products;
      showAddProduct := false;
      effect := Toast("Product added successfully!", Success);
    }

    /**
     * `handleUpdateProduct`: the update with `.single()` succeeds only when exactly
     * one row has the edited id (otherwise the request fails and nothing is written);
     * then that row and the list's entries with the id get the form's fields.
     */
    method HandleUpdateProduct(f: ProductFormView.FormData, parsePrice: string -> real, updateFails: bool)
      returns (effect: Effect)
      modifies this`products, this`editingProduct, store`products
      ensures old(editingProduct).None? ==> effect == NoEffect && unchanged(this) && unchanged(store)
      ensures old(editingProduct).Some? && updateFails ==>
        effect == Toast("Failed to update product", Error) && unchanged(this) && unchanged(store)
      ensures old(editingProduct).Some? && !updateFails ==>
        var id := old(editingProduct).value.productId;
        var data := ProductFromForm(id, f, parsePrice);
        var matched := |Seqs.Filter(old(store.products), (p: Product) => p.productId == id)|;
        && (matched == 1 ==>
              store.products == ReplaceProduct(old(store.products), id, data) &&
              products == ReplaceProduct(old(products), id, data) && editingProduct == None &&
              effect == Toast("Product updated successfully!", Success))
        && (matched != 1 ==>
              store.products == old(store.products) &&
              products == old(products) && editingProduct == old(editingProduct) &&
              effect == Toast("Failed to update product", Error))
    {
      if editingProduct.None? {
        return NoEffect;
      }
      if updateFails {
        return Toast("Failed to update product", Error);
      }
      var id := editingProduct.value.productId;
      var data := ProductFromForm(id, f, parsePrice);
      var matched := |Seqs.Filter(store.products, (p: Product) => p.productId == id)|;
      if matched != 1 {
        return Toast("Failed to update product", Error);
      }
      store.products := ReplaceProduct(store.products, id, data);
      products := ReplaceProduct(products, id, data);
      editingProduct := None;
      effect := Toast("Product updated successfully!", Success);
    }

    /** `toggleProductStatus(id, current)`: store and list get `is_active := !current`. */
    method ToggleProductStatus(id: string, current: bool, updateFails: bool) returns (effect: Effect)
      modifies this`products, store`products
      ensures updateFails ==> effect == Toast("Failed to update product status", Error) && unchanged(this) && unchanged(store)
      ensures !updateFails ==>
        && store.products == SetActive(old(store.products), id, !current)
        && products == SetActive(old(products), id, !current)
        && effect == Toast(ToggleMessage(!current), Success)
    {
      if updateFails {
        return Toast("Failed to update product status", Error);
      }
      store.products := SetActive(store.products, id, !current);
      products := SetActive(products, id, !current);
      effect := Toast(ToggleMessage(!current), Success);
    }
  }
}
