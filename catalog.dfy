/** Catalog rules of the product listing route: which sort key and
    direction a request selects, which products its optional filters keep,
    and how each listed product is assembled with its media, its variants
    and its rating. */
module Catalog {
  import opened Rows
  import opened Queries

  // ----- Sorting -----

  /** The four sortable columns; `Reviews` is the product's review count. */
  datatype SortKey = Sales | Price | Reviews | Created

  datatype Sort = Sort(key: SortKey, descending: bool)

  /** The `sort_by` value used when the request gives none. It is not one
      of the accepted keys. */
  const DefaultSortBy: string := "created_at"

  /** The whitelist of `sort_by` values and the column each one selects. */
  function SortKeyOf(name: string): (r: Option<SortKey>)
    ensures r.Some? <==> name in {"sales", "price", "reviews", "created"}
    ensures r == Some(Sales) <==> name == "sales"
    ensures r == Some(Price) <==> name == "price"
    ensures r == Some(Reviews) <==> name == "reviews"
    ensures r == Some(Created) <==> name == "created"
  {
    if name == "sales" then Some(Sales)
    else if name == "price" then Some(Price)
    else if name == "reviews" then Some(Reviews)
    else if name == "created" then Some(Created)
    else None
  }

  /** The ordering a listing request asks for, or None when its `sort_by`
      is not accepted (the 400 answer). */
  function SortChoice(sortBy: Option<string>, sortOrder: Option<string>): (r: Option<Sort>)
    ensures r.None? <==>
      (if sortBy.Some? then sortBy.value else DefaultSortBy) !in {"sales", "price", "reviews", "created"}
    ensures sortBy.None? ==> r.None?
    ensures r.Some? ==> Some(r.value.key) == SortKeyOf(sortBy.value)
    ensures r.Some? ==> (r.value.descending <==> sortOrder == Some("desc"))
  {
    var name := if sortBy.Some? then sortBy.value else DefaultSortBy;
    var order := if sortOrder.Some? then sortOrder.value else "asc";
    match SortKeyOf(name)
    case None => None
    case Some(key) => Some(Sort(key, order == "desc"))
  }

  // ----- Filtering -----

  /** The optional `category_id`, `feature_type` and `gender` arguments. */
  datatype ProductFilter = ProductFilter(
    categoryId: Option<int>,
    featureType: Option<string>,
    gender: Option<string>)

  /** A product passes when it agrees with every filter whose value is truthy. */
  predicate Matches(p: Product, f: ProductFilter) {
    && (TruthyInt(f.categoryId) ==> p.categoryId == f.categoryId)
    && (TruthyStr(f.featureType) ==> p.featureType == f.featureType)
    && (TruthyStr(f.gender) ==> p.gender == f.gender)
  }

  /** The indices of the products the listing query keeps. */
  function MatchingProducts(products: seq<Product>, f: ProductFilter): (r: seq<nat>)
    ensures forall k :: 0 <= k < |r| ==> r[k] < |products|
    ensures forall i :: 0 <= i < |products| ==>
      (i in r <==>
        && (TruthyInt(f.categoryId) ==> products[i].categoryId == f.categoryId)
        && (TruthyStr(f.featureType) ==> products[i].featureType == f.featureType)
        && (TruthyStr(f.gender) ==> products[i].gender == f.gender))
    ensures forall k, l :: 0 <= k < l < |r| ==> r[k] < r[l]
  {
    Select(products, (p: Product) => Matches(p, f))
  }

  /** With no truthy filter value the listing keeps every product. */
  lemma NoFilterKeepsAll(products: seq<Product>, f: ProductFilter)
    requires !TruthyInt(f.categoryId) && !TruthyStr(f.featureType) && !TruthyStr(f.gender)
    ensures MatchingProducts(products, f) == seq(|products|, i => i)
  {
    var r := MatchingProducts(products, f);
    var all := seq(|products|, i => i);
    forall i | 0 <= i < |products| ensures i in r { }
    IncreasingCover(r, |products|);
  }

  /** A strictly increasing sequence of indices below n that contains every
      index below n is 0, 1, ..., n - 1. */
  lemma {:induction false} IncreasingCover(r: seq<nat>, n: nat)
    requires forall k :: 0 <= k < |r| ==> r[k] < n
    requires forall i :: 0 <= i < n ==> i in r
    requires forall k, l :: 0 <= k < l < |r| ==> r[k] < r[l]
    ensures r == seq(n, i => i)
  {
    IncreasingBelow(r, n);
    if n > 0 {
      assert n - 1 in r;
      var last :| 0 <= last < |r| && r[last] == n - 1;
      assert r[|r| - 1] < n;
      assert last == |r| - 1;
      var front := r[..|r| - 1];
      forall i | 0 <= i < n - 1 ensures i in front {
        assert i in r;
        var k :| 0 <= k < |r| && r[k] == i;
        assert k != |r| - 1;
        assert front[k] == i;
      }
      IncreasingCover(front, n - 1);
      assert r == front + [n - 1];
    }
  }

  /** A strictly increasing sequence of indices below n has at most n elements. */
  lemma {:induction false} IncreasingBelow(r: seq<nat>, n: nat)
    requires forall k :: 0 <= k < |r| ==> r[k] < n
    requires forall k, l :: 0 <= k < l < |r| ==> r[k] < r[l]
    ensures |r| <= n
  {
    if r != [] {
      var front := r[..|r| - 1];
      assert forall k :: 0 <= k < |front| ==> front[k] < r[|r| - 1];
      IncreasingBelow(front, r[|r| - 1]);
    }
  }

  /** A product appended to the table is listed last, exactly when it
      passes the filters. */
  lemma MatchingProductsAppend(products: seq<Product>, p: Product, f: ProductFilter)
    ensures MatchingProducts(products + [p], f) ==
      MatchingProducts(products, f) + (if Matches(p, f) then [|products|] else [])
  {
    assert (products + [p])[..|products|] == products;
  }

  // ----- Rating -----

  /** The average rating as the exact ratio `ratingSum / reviews`. */
  datatype Rating = Rating(ratingSum: int, reviews: nat)

  /** The listed product's average rating: null exactly when it has no reviews. */
  function AverageRating(p: Product): (r: Option<Rating>)
    ensures r.None? <==> p.totalReviews == 0
    ensures r.Some? ==> r.value.reviews == p.totalReviews > 0 && r.value.ratingSum == p.currentRatingSum
  {
    if p.totalReviews > 0 then Some(Rating(p.currentRatingSum, p.totalReviews)) else None
  }

  // ----- Media and variants -----

  /** The indices of the media rows attached to product `productId`, oldest first. */
  function MediaOfProduct(media: seq<Media>, productId: int): (r: seq<nat>)
    ensures forall k :: 0 <= k < |r| ==> r[k] < |media| && media[r[k]].productId == Some(productId)
    ensures forall i :: 0 <= i < |media| && media[i].productId == Some(productId) ==> i in r
    ensures forall k, l :: 0 <= k < l < |r| ==> r[k] < r[l]
  {
    Select(media, (m: Media) => m.productId == Some(productId))
  }

  /** A media row appended to the table comes last among its product's media. */
  lemma MediaOfProductAppend(media: seq<Media>, m: Media, productId: int)
    ensures MediaOfProduct(media + [m], productId) ==
      MediaOfProduct(media, productId) + (if m.productId == Some(productId) then [|media|] else [])
  {
    assert (media + [m])[..|media|] == media;
  }

  /** The indices of the media rows attached to variant `variantId`, oldest first. */
  function MediaOfVariant(media: seq<Media>, variantId: int): (r: seq<nat>)
    ensures forall k :: 0 <= k < |r| ==> r[k] < |media| && media[r[k]].variantId == Some(variantId)
    ensures forall i :: 0 <= i < |media| && media[i].variantId == Some(variantId) ==> i in r
    ensures forall k, l :: 0 <= k < l < |r| ==> r[k] < r[l]
  {
    Select(media, (m: Media) => m.variantId == Some(variantId))
  }

  /** The indices of the variants of product `productId`. */
  function VariantsOf(variants: seq<Variant>, productId: int): (r: seq<nat>)
    ensures forall k :: 0 <= k < |r| ==> r[k] < |variants| && variants[r[k]].productId == productId
    ensures forall i :: 0 <= i < |variants| && variants[i].productId == productId ==> i in r
    ensures forall k, l :: 0 <= k < l < |r| ==> r[k] < r[l]
  {
    Select(variants, (v: Variant) => v.productId == productId)
  }

  /** The `name` column of the given media rows, in the given order. */
  function Names(media: seq<Media>, idx: seq<nat>): (r: seq<Option<string>>)
    requires forall k :: 0 <= k < |idx| ==> idx[k] < |media|
    ensures |r| == |idx|
    ensures forall k :: 0 <= k < |idx| ==> r[k] == media[idx[k]].name
  {
    seq(|idx|, k requires 0 <= k < |idx| => media[idx[k]].name)
  }

  /** The `url` column of the given media rows, in the given order. */
  function Urls(media: seq<Media>, idx: seq<nat>): (r: seq<Option<string>>)
    requires forall k :: 0 <= k < |idx| ==> idx[k] < |media|
    ensures |r| == |idx|
    ensures forall k :: 0 <= k < |idx| ==> r[k] == media[idx[k]].url
  {
    seq(|idx|, k requires 0 <= k < |idx| => media[idx[k]].url)
  }

  // ----- Listing entries -----

  datatype VariantEntry = VariantEntry(id: nat, variant: Variant, media: seq<Option<string>>)

  datatype ProductEntry = ProductEntry(
    id: nat,
    product: Product,
    media: seq<Option<string>>,
    averageRating: Option<Rating>,
    variants: seq<VariantEntry>)

  /** `e` lists variant row `i` with the names of its media, oldest first. */
  predicate DescribesVariant(e: VariantEntry, t: Tables, i: nat) {
    && i < |t.variants|
    && e.id == i + 1
    && e.variant == t.variants[i]
    && e.media == Names(t.media, MediaOfVariant(t.media, i + 1))
  }

  /** `e` lists product row `i` with the names of its media, its rating and
      every variant of the product. */
  predicate DescribesProduct(e: ProductEntry, t: Tables, i: nat) {
    && i < |t.products|
    && e.id == i + 1
    && e.product == t.products[i]
    && e.media == Names(t.media, MediaOfProduct(t.media, i + 1))
    && e.averageRating == AverageRating(t.products[i])
    && var vs := VariantsOf(t.variants, i + 1);
    && |e.variants| == |vs|
    && forall l :: 0 <= l < |vs| ==> DescribesVariant(e.variants[l], t, vs[l])
  }
}
