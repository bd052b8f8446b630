/** The catalog administration handlers: creating a product and attaching
    a media record to one. */
module AdminRoutes {
  import opened Rows
  import opened Queries
  import opened Catalog
  import opened Db

  // ----- POST /products -----

  /** The row a created product becomes: the payload's name, description and
      price; no stock, category, feature type or gender; no sales and no
      reviews. */
  function NewProduct(name: string, description: Option<string>, price: int): (p: Product)
    ensures p.name == name && p.description == description && p.price == price
    ensures p.stockQuantity.None? && p.categoryId.None? && p.featureType.None? && p.gender.None?
    ensures p.sales == 0 && p.totalReviews == 0 && p.currentRatingSum == 0
  {
    Product(name, description, price, None, None, None, None, 0, 0, 0)
  }

  /** Creates a product. A missing or empty name, or a missing or zero
      price, answers 400 and inserts nothing; otherwise the product is
      appended and its id returned. */
  method AddProduct(db: Store, name: Option<string>, description: Option<string>, price: Option<int>)
    returns (status: int, productId: Option<nat>)
    modifies db`products
    ensures status == 400 || status == 201
    ensures status == 400 <==> !TruthyStr(name) || !TruthyInt(price)
    ensures status == 400 ==> productId.None? && unchanged(db)
    ensures status == 201 ==>
      && db.products == old(db.products) + [NewProduct(name.value, description, price.value)]
      && productId == Some(|db.products|)
      && Lookup(db.products, productId.value) == Some(NewProduct(name.value, description, price.value))
  {
    if !TruthyStr(name) || !TruthyInt(price) {
      return 400, None;
    }
    db.products := db.products + [NewProduct(name.value, description, price.value)];
    return 201, Some(|db.products|);
  }

  /** A new product has no category, feature type or gender, so the listing
      shows it exactly when none of its filters is truthy. */
  lemma NewProductListed(products: seq<Product>, name: string, description: Option<string>, price: int,
                         f: ProductFilter)
    ensures |products| in MatchingProducts(products + [NewProduct(name, description, price)], f) <==>
      !TruthyInt(f.categoryId) && !TruthyStr(f.featureType) && !TruthyStr(f.gender)
  {
    var p := NewProduct(name, description, price);
    MatchingProductsAppend(products, p, f);
    var before := MatchingProducts(products, f);
    assert |products| !in before;
  }

  // ----- POST /products/<product_id>/media -----

  /** The media type a payload names, or None when the payload is rejected:
      `media_type` or `url` missing or empty, or a type other than "image"
      and "video". */
  function MediaPayloadType(mediaType: Option<string>, url: Option<string>): (r: Option<MediaType>)
    ensures r.None? <==>
      !TruthyStr(mediaType) || !TruthyStr(url) || mediaType.value !in {"image", "video"}
    ensures r == Some(Image) <==> mediaType == Some("image") && TruthyStr(url)
    ensures r == Some(Video) <==> mediaType == Some("video") && TruthyStr(url)
  {
    if !TruthyStr(mediaType) || !TruthyStr(url) then None
    else if mediaType.value == "image" then Some(Image)
    else if mediaType.value == "video" then Some(Video)
    else None
  }

  /** Attaches a media record to a product. The payload is checked first
      (400), then the product's existence (404); otherwise a media row with
      the product, the type and the url is appended and its id returned. */
  method AddMedia(db: Store, productId: nat, mediaType: Option<string>, url: Option<string>)
    returns (status: int, mediaId: Option<nat>)
    modifies db`media
    ensures status in {201, 400, 404}
    ensures status == 400 <==> MediaPayloadType(mediaType, url).None?
    ensures status == 404 <==> MediaPayloadType(mediaType, url).Some? && Lookup(old(db.products), productId).None?
    ensures status != 201 ==> mediaId.None? && unchanged(db)
    ensures status == 201 ==>
      && db.media == old(db.media) + [Media(Some(productId), None, MediaPayloadType(mediaType, url).value, None, url)]
      && mediaId == Some(|db.media|)
      && MediaOfProduct(db.media, productId) == MediaOfProduct(old(db.media), productId) + [mediaId.value - 1]
  {
    var kind := MediaPayloadType(mediaType, url);
    if kind.None? {
      return 400, None;
    }
    if Lookup(db.products, productId).None? {
      return 404, None;
    }
    var m := Media(Some(productId), None, kind.value, None, url);
    MediaOfProductAppend(db.media, m, productId);
    db.media := db.media + [m];
    return 201, Some(|db.media|);
  }
}
