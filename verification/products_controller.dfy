/**
 * The request-shaping rules of the product handlers: the category filter of
 * the product list, the default of the featured-products limit, the upload
 * URL of an image, and the checks and writes of product creation, product
 * update and gallery update.
 */
module ProductsController {
  import opened Models
  import Strings
  import Uploads

  const CATEGORY_NOT_FOUND := HttpError(500, "Category for this product was not found!")
  const IMAGE_NOT_FOUND := HttpError(400, "Image for this product was not found!")
  const INVALID_PRODUCT_ID := HttpError(404, "Product with this ID was not found!")
  const PRODUCT_NOT_FOUND := HttpError(500, "Product was not found!")

  /** The product fields a create or update request carries. */
  datatype ProductBody = ProductBody(
    name: string,
    description: string,
    richDescription: string,
    image: string,
    brand: string,
    price: int,
    category: Id,
    countInStock: int,
    rating: int,
    numReviews: int,
    isFeatured: bool)

  // ---------------------------------------------------------------------------
  // Pure request shaping

  /**
   * The filter of `getAllProducts`. `None` is the empty filter (every
   * product); it is used when the `categories` query is absent or empty.
   * Otherwise the filter is the list of category ids the query separates by
   * commas, in query order.
   */
  function CategoryFilter(categories: Option<string>): (r: Option<seq<string>>)
    ensures r.None? <==> categories.None? || categories.value == ""
    ensures r.Some? ==> |r.value| >= 1 && Strings.Join(r.value, ',') == categories.value
    ensures r.Some? ==> forall i :: 0 <= i < |r.value| ==> ',' !in r.value[i]
  {
    match categories
    case None => None
    case Some(q) => if q == "" then None else Some(Strings.Split(q, ','))
  }

  /** A list of comma-free ids sent as one comma-separated query comes back as the same list. */
  lemma CategoryFilterRoundTrip(ids: seq<string>)
    requires |ids| >= 1 && forall i :: 0 <= i < |ids| ==> ',' !in ids[i]
    requires Strings.Join(ids, ',') != ""
    ensures CategoryFilter(Some(Strings.Join(ids, ','))) == Some(ids)
  {
    Strings.SplitJoin(ids, ',');
  }

  /**
   * The limit of `featuredProducts` after `limit ? limit : 0` and the numeric
   * conversion `+limit`: a count, or text whose conversion is left to the
   * JavaScript number rules.
   */
  datatype Limit = Count(n: nat) | Unconverted(text: string)

  /**
   * An absent or empty limit parameter becomes 0; a parameter of decimal
   * digits becomes its value. What a limit of 0 means to the query is not
   * decided here.
   */
  function FeaturedLimit(limit: Option<string>): (r: Limit)
    ensures limit.None? ==> r == Count(0)
    ensures limit.Some? && limit.value == "" ==> r == Count(0)
    ensures limit.Some? && Strings.IsDigits(limit.value) ==> r == Count(Strings.DecimalValue(limit.value))
  {
    match limit
    case None => Count(0)
    case Some(text) =>
      if text == "" then Count(0)
      else if Strings.IsDigits(text) then Count(Strings.DecimalValue(text))
      else Unconverted(text)
  }

  /** The decimal text of a count is read back as that count. */
  lemma FeaturedLimitRoundTrip(n: nat)
    ensures FeaturedLimit(Some(Strings.DecimalString(n))) == Count(n)
  {
    Strings.DecimalRoundTrip(n);
  }

  /** `${req.protocol}://${host}/uploads/`: where uploaded files are served from. */
  function BasePath(protocol: string, host: string): (r: string)
    ensures protocol <= r
    ensures |r| >= 9 && r[|r| - 9..] == "/uploads/"
  {
    protocol + "://" + host + "/uploads/"
  }

  /** The URL of a stored file: the base path followed by the stored name, nothing in between. */
  function ImageUrl(basePath: string, filename: string): (r: string)
    ensures basePath <= r && r[|basePath|..] == filename
  {
    basePath + filename
  }

  /** The URL of an accepted upload ends in '.' and the extension its mimetype maps to. */
  lemma ImageUrlEndsWithExtension(basePath: string, file: Uploads.Incoming)
    requires Uploads.IsImageType(file.mimetype)
    ensures var ext := Uploads.FILE_TYPE_MAP[file.mimetype];
      var url := ImageUrl(basePath, Uploads.Filename(file));
      |url| > |ext| && url[|url| - |ext| - 1..] == "." + ext
  {
    var ext := Uploads.FILE_TYPE_MAP[file.mimetype];
    var stem := Uploads.BaseName(file.originalname) + "-" + Strings.DecimalString(file.uploadedAt);
    assert Uploads.Filename(file) == stem + "." + ext;
    assert ImageUrl(basePath, Uploads.Filename(file)) == (basePath + stem) + ("." + ext);
  }

  /**
   * What `createProduct` decides before it writes: first the category must
   * exist (500), then an image must have been uploaded (400). The new record
   * takes the body's fields, the image URL instead of the body's image, and
   * an empty gallery.
   */
  function NewProduct(categories: set<Id>, body: ProductBody, file: Option<Uploads.StoredFile>, basePath: string)
    : (r: Result<Product, HttpError>)
    ensures body.category !in categories ==> r == Failure(CATEGORY_NOT_FOUND)
    ensures body.category in categories && file.None? ==> r == Failure(IMAGE_NOT_FOUND)
    ensures r.Success? <==> body.category in categories && file.Some?
    ensures r.Success? ==>
      && r.value.image == ImageUrl(basePath, file.value.filename)
      && r.value.images == []
      && r.value.name == body.name && r.value.price == body.price
      && r.value.category == body.category && r.value.countInStock == body.countInStock
  {
    if body.category !in categories then Failure(CATEGORY_NOT_FOUND)
    else if file.None? then Failure(IMAGE_NOT_FOUND)
    else
      Success(Product(body.name, body.description, body.richDescription,
        ImageUrl(basePath, file.value.filename), [], body.brand, body.price, body.category,
        body.countInStock, body.rating, body.numReviews, body.isFeatured))
  }

  /** The record an update writes: every body field replaces the stored one; the gallery is kept. */
  function ApplyBody(p: Product, body: ProductBody): (r: Product)
    ensures r.images == p.images
    ensures r.image == body.image && r.price == body.price && r.category == body.category
    ensures r.countInStock == body.countInStock && r.name == body.name
  {
    Product(body.name, body.description, body.richDescription, body.image, p.images, body.brand,
      body.price, body.category, body.countInStock, body.rating, body.numReviews, body.isFeatured)
  }

  /**
   * The path list of `updateProductImages`: one URL per uploaded file, in
   * upload order; no files give the empty list.
   */
  method GalleryPaths(basePath: string, files: Option<seq<Uploads.StoredFile>>) returns (imagesPaths: seq<string>)
    ensures files.None? ==> imagesPaths == []
    ensures files.Some? ==> |imagesPaths| == |files.value|
    ensures files.Some? ==> forall i :: 0 <= i < |files.value| ==>
      imagesPaths[i] == ImageUrl(basePath, files.value[i].filename)
  {
    imagesPaths := [];
    if files.Some? {
      var fs := files.value;
      var i := 0;
      while i < |fs|
        invariant 0 <= i <= |fs|
        invariant |imagesPaths| == i
        invariant forall k :: 0 <= k < i ==> imagesPaths[k] == ImageUrl(basePath, fs[k].filename)
      {
        imagesPaths := imagesPaths + [ImageUrl(basePath, fs[i].filename)];
        i := i + 1;
      }
    }
  }

  // ---------------------------------------------------------------------------
  // Handlers that write

  /** `createProduct`: the checks of `NewProduct`, then the new record is saved under a fresh id. */
  method CreateProduct(db: Store, body: ProductBody, file: Option<Uploads.StoredFile>, protocol: string, host: string)
    returns (r: Result<(Id, Product), HttpError>)
    requires db.Valid()
    modifies db
    ensures db.Valid()
    ensures NewProduct(old(db.categories), body, file, BasePath(protocol, host)).Failure? ==>
      && r == Failure(NewProduct(old(db.categories), body, file, BasePath(protocol, host)).error)
      && unchanged(db)
    ensures NewProduct(old(db.categories), body, file, BasePath(protocol, host)).Success? ==>
      var p := NewProduct(old(db.categories), body, file, BasePath(protocol, host)).value;
      && old(db.nextId) !in old(db.products)
      && r == Success((old(db.nextId), p))
      && db.products == old(db.products)[old(db.nextId) := p]
      && db.nextId == old(db.nextId) + 1
      && db.categories == old(db.categories) && db.orderItems == old(db.orderItems) && db.orders == old(db.orders)
      && db.log == old(db.log) + [SaveProduct(old(db.nextId))]
  {
    var basePath := BasePath(protocol, host);
    var product := NewProduct(db.categories, body, file, basePath);
    if product.Failure? {
      return Failure(product.error);
    }
    var id := db.nextId;
    db.nextId := id + 1;
    db.products := db.products[id := product.value];
    db.log := db.log + [SaveProduct(id)];
    return Success((id, product.value));
  }

  /**
   * `updateProduct`: a malformed id is refused with 404 before anything else,
   * then a missing category (500), then a missing product (500); otherwise
   * the stored record takes the body's fields.
   */
  method UpdateProductFields(db: Store, param: PathParam, body: ProductBody) returns (r: Result<Product, HttpError>)
    requires db.Valid()
    modifies db
    ensures db.Valid()
    ensures param.Malformed? ==> r == Failure(INVALID_PRODUCT_ID) && unchanged(db)
    ensures param.Parsed? && body.category !in old(db.categories) ==> r == Failure(CATEGORY_NOT_FOUND) && unchanged(db)
    ensures param.Parsed? && body.category in old(db.categories) && param.id !in old(db.products) ==>
      r == Failure(PRODUCT_NOT_FOUND) && unchanged(db)
    ensures param.Parsed? && body.category in old(db.categories) && param.id in old(db.products) ==>
      && r == Success(ApplyBody(old(db.products)[param.id], body))
      && db.products == old(db.products)[param.id := r.value]
      && db.categories == old(db.categories) && db.orderItems == old(db.orderItems) && db.orders == old(db.orders)
      && db.nextId == old(db.nextId)
      && db.log == old(db.log) + [UpdateProduct(param.id)]
  {
    if param.Malformed? {
      return Failure(INVALID_PRODUCT_ID);
    }
    if body.category !in db.categories {
      return Failure(CATEGORY_NOT_FOUND);
    }
    if param.id !in db.products {
      return Failure(PRODUCT_NOT_FOUND);
    }
    var product := ApplyBody(db.products[param.id], body);
    db.products := db.products[param.id := product];
    db.log := db.log + [UpdateProduct(param.id)];
    return Success(product);
  }

  /**
   * `updateProductImages`: a malformed id is refused with 404 before anything
   * else; the path list then replaces the product's gallery, even when it is
   * empty. A missing product gives 500 and nothing is written.
   */
  method UpdateProductImages(db: Store, param: PathParam, files: Option<seq<Uploads.StoredFile>>,
                             protocol: string, host: string)
    returns (r: Result<Product, HttpError>)
    requires db.Valid()
    modifies db
    ensures db.Valid()
    ensures param.Malformed? ==> r == Failure(INVALID_PRODUCT_ID) && unchanged(db)
    ensures param.Parsed? && param.id !in old(db.products) ==> r == Failure(PRODUCT_NOT_FOUND) && unchanged(db)
    ensures param.Parsed? && param.id in old(db.products) ==>
      var before := old(db.products)[param.id];
      && r.Success?
      && r.value == before.(images := r.value.images)
      && (files.None? ==> r.value.images == [])
      && (files.Some? ==> |r.value.images| == |files.value|)
      && (files.Some? ==> forall i :: 0 <= i < |files.value| ==>
            r.value.images[i] == ImageUrl(BasePath(protocol, host), files.value[i].filename))
      && db.products == old(db.products)[param.id := r.value]
      && db.categories == old(db.categories) && db.orderItems == old(db.orderItems) && db.orders == old(db.orders)
      && db.nextId == old(db.nextId)
      && db.log == old(db.log) + [UpdateProduct(param.id)]
  {
    if param.Malformed? {
      return Failure(INVALID_PRODUCT_ID);
    }
    var basePath := BasePath(protocol, host);
    var imagesPaths := GalleryPaths(basePath, files);
    if param.id !in db.products {
      return Failure(PRODUCT_NOT_FOUND);
    }
    var product := db.products[param.id].(images := imagesPaths);
    db.products := db.products[param.id := product];
    db.log := db.log + [UpdateProduct(param.id)];
    return Success(product);
  }
}
