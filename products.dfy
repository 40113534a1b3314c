/**
 * The product service: the discounted `finalPrice`, the mapping from query
 * filters to a MongoDB condition, and the create, update, delete and
 * delete-image operations on the Product collection, a map from ids to
 * records whose `sku` is a unique index.
 *
 * Uploading to and deleting from Cloudinary and removing the files multer
 * stored are outside the model: the uploaded images enter as the URLs their
 * uploads returned, one per file.  The ids of the stored categories enter as
 * a set.
 */
module Products {
  import opened Api
  import opened Text
  import opened Zod
  import opened Store
  import opened ProductSchemas
  import opened Casts
  import Sku

  // ---------------------------------------------------------------- finalPrice

  /** `discount ? price - (price * discount) / 100 : price`, over the reals. */
  function FinalPrice(price: real, discount: real): (r: real)
    ensures r == price * (100.0 - discount) / 100.0
    ensures discount == 0.0 ==> r == price
  {
    if discount != 0.0 then price - price * discount / 100.0 else price
  }

  /** A discount from 0 to 100 on a price that is not negative leaves a final price from 0 to the price. */
  lemma FinalPriceBounds(price: real, discount: real)
    requires price >= 0.0 && 0.0 <= discount <= 100.0
    ensures 0.0 <= FinalPrice(price, discount) <= price
  {
    assert price * (100.0 - discount) >= 0.0;
    assert price * (100.0 - discount) <= price * 100.0;
  }

  /** A larger discount never gives a larger final price. */
  lemma FinalPriceMonotone(price: real, d1: real, d2: real)
    requires price >= 0.0 && d1 <= d2
    ensures FinalPrice(price, d2) <= FinalPrice(price, d1)
  {
    assert price * (100.0 - d2) <= price * (100.0 - d1);
  }

  // ---------------------------------------------------------------- records

  datatype Product = Product(
    name: string,
    price: real,
    discount: Option<real>,
    finalPrice: real,
    quantity: string,
    description: Option<string>,
    stock: real,
    images: seq<string>,
    sku: string,
    isActive: bool,
    category: Id,
    isWeekendDeal: bool,
    isFeatured: bool)

  /**
   * The number Mongoose stores for a price value: a JSON number, or a form
   * field of decimal digits; None for a value it cannot cast.
   */
  function PriceNumber(v: Value): (r: Option<real>)
    ensures v.Num? ==> r == Some(v.x)
    ensures r.Some? ==> v.Num? || v.Str?
  {
    match v
    case Num(x) => Some(x)
    case Str(s) => if s != "" && AllDigits(s) then Some(DecimalValue(s) as real) else None
    case _ => None
  }

  /** A body discount as the computation reads it: a number, or 0 (falsy) when absent. */
  function DiscountOf(v: Value): real
  {
    if v.Num? then v.x else 0.0
  }

  /**
   * What an `images` value in the body stores in the `[String]` path: absent
   * keeps the current list; an array has each element cast to a string; a
   * single string, number or boolean becomes a list of one.
   */
  function ImagesCast(v: Value, current: seq<string>): (r: Option<seq<string>>)
    ensures v.Undefined? ==> r == Some(current)
    ensures v.Arr? ==> r == StringsCast(v.elems)
    ensures v.Str? ==> r == Some([v.s])
    ensures v.Bool? ==> r == Some([if v.b then "true" else "false"])
    ensures v.Num? ==> r == (match WholeNumberText(v.x) case Some(s) => Some([s]) case None => None)
    ensures v.Null? || v.Obj? ==> r.None?
  {
    if v.Undefined? then Some(current) else StringListCast(v)
  }

  // A body value that replaces a stored field when it has the field's type.
  function FlagOr(v: Value, default: bool): bool
  {
    if v.Bool? then v.b else default
  }

  function StrOr(v: Value, default: string): string
  {
    if v.Str? then v.s else default
  }

  function NumOr(v: Value, default: real): real
  {
    if v.Num? then v.x else default
  }

  const IMAGE_REQUIRED_MESSAGE: string := "At least one image is required to create a product."
  const INVALID_CATEGORY_MESSAGE: string := "Invalid category. Category does not exist."
  const NAME_CONFLICT_MESSAGE: string := "Product with this name already exists in this category."
  const SKU_UPDATE_MESSAGE: string := "SKU cannot be updated"
  const NOT_FOUND_MESSAGE: string := "Product not found."
  const DELETE_NOT_FOUND_MESSAGE: string := "Product not found"
  const DELETED_MESSAGE: string := "Product deleted successfully"
  const IDS_MESSAGE: string := "Invalid request. 'ids' must be a non-empty array"
  const MISSING_IDS_MESSAGE: string := "One or more product IDs do not exist"
  const INVALID_REQUEST_MESSAGE: string := "Invalid request"
  const IMAGE_URL_REQUIRED_MESSAGE: string := "Image URL is required."
  const IMAGE_NOT_FOUND_MESSAGE: string := "Image not found in product."
  const LAST_IMAGE_MESSAGE: string := "Cannot delete the only image. At least one image is required."
  const IMAGE_DELETED_MESSAGE: string := "Image deleted successfully"

  /** The SKUs held by stored products. */
  function Skus(products: map<Id, Product>): set<string>
  {
    set k | k in products :: products[k].sku
  }

  /** The unique index on `sku`. */
  predicate UniqueSkus(products: map<Id, Product>)
  {
    forall a, b :: a in products && b in products && a != b ==> products[a].sku != products[b].sku
  }

  /** No two products of one category share a name (what the pre-checks of create and update keep). */
  predicate UniqueNames(products: map<Id, Product>)
  {
    forall a, b :: a in products && b in products && a != b ==>
      products[a].name != products[b].name || products[a].category != products[b].category
  }

  /**
   * Every product has an image.  Create requires one and deleting the last
   * one is refused, but an update may store any list (`UpdateCanEmptyImages`),
   * so this is not an invariant of the collection.
   */
  predicate AllHaveImages(products: map<Id, Product>)
  {
    forall k :: k in products ==> products[k].images != []
  }

  predicate Consistent(products: map<Id, Product>)
  {
    UniqueSkus(products) && UniqueNames(products)
  }

  /** `Product.findOne({ name, category })` finds a document. */
  predicate NameTaken(products: map<Id, Product>, name: string, category: Id)
  {
    exists k :: k in products && products[k].name == name && products[k].category == category
  }

  /**
   * `Product.findOne({ name, category, _id: { $ne: id } })` finds a document.
   * Mongoose drops a filter key whose value is undefined, so without a name
   * any other product of the category matches.
   */
  predicate OtherInCategory(products: map<Id, Product>, id: Id, name: Option<string>, category: Id)
    ensures name.Some? && OtherInCategory(products, id, name, category) ==> NameTaken(products, name.value, category)
    ensures OtherInCategory(products, id, name, category) ==> exists k :: k in products && k != id && products[k].category == category
    ensures name.None? ==> (OtherInCategory(products, id, name, category) <==> exists k :: k in products && k != id && products[k].category == category)
  {
    exists k :: k in products && k != id && products[k].category == category &&
      (name.None? || products[k].name == name.value)
  }

  // ---------------------------------------------------------------- create

  /** The random draws contain one whose SKU no stored product holds, so that the retry loop ends. */
  predicate DrawsSuffice(products: map<Id, Product>, body: Body, now: nat, draws: seq<real>)
  {
    && Sku.Draws(draws)
    && (Get(body, "category").Str? && Get(body, "name").Str? ==>
         exists i :: 0 <= i < |draws| &&
           Sku.Compose(Get(body, "category").s, Get(body, "name").s, Sku.Stamp(now), draws[i]) !in Skus(products))
  }

  /** The record `new Product({ ...parseBody.data, finalPrice, sku })` saves, before its images are set. */
  function NewProduct(body: Body, price: real, images: seq<string>, sku: string): (p: Product)
    requires Get(body, "name").Str? && Get(body, "quantity").Str? && Get(body, "category").Str?
    ensures p.name == Get(body, "name").s && p.category == Get(body, "category").s && p.quantity == Get(body, "quantity").s
    ensures p.price == price && p.images == images && p.sku == sku
    ensures 0.0 <= price && 0.0 <= DiscountOf(Get(body, "discount")) <= 100.0 ==> 0.0 <= p.finalPrice <= p.price
    ensures !Get(body, "discount").Num? ==> p.finalPrice == price && p.discount.None?
    ensures !Get(body, "stock").Num? ==> p.stock == 0.0
    ensures p.isActive <==> !(Get(body, "isActive") == Bool(false))
    ensures p.isWeekendDeal <==> Get(body, "isWeekendDeal") == Bool(true)
    ensures p.isFeatured <==> Get(body, "isFeatured") == Bool(true)
  {
    var d := DiscountOf(Get(body, "discount"));
    assert 0.0 <= price && 0.0 <= d <= 100.0 ==> 0.0 <= FinalPrice(price, d) <= price by {
      if 0.0 <= price && 0.0 <= d <= 100.0 {
        FinalPriceBounds(price, d);
      }
    }
    var discount := Get(body, "discount");
    Product(
      Get(body, "name").s,
      price,
      if discount.Num? then Some(discount.x) else None,
      FinalPrice(price, DiscountOf(discount)),
      Get(body, "quantity").s,
      if Get(body, "description").Str? then Some(Get(body, "description").s) else None,
      if Get(body, "stock").Num? then Get(body, "stock").x else 0.0,
      images,
      sku,
      FlagOr(Get(body, "isActive"), true),
      Get(body, "category").s,
      FlagOr(Get(body, "isWeekendDeal"), false),
      FlagOr(Get(body, "isFeatured"), false))
  }

  /** The fields an accepted create body is sure to carry as strings. */
  predicate Shaped(body: Body)
  {
    Get(body, "name").Str? && Get(body, "quantity").Str? && Get(body, "category").Str?
  }

  /**
   * `createProduct` after the body is accepted and an image is uploaded, up
   * to the first `product.save()`: the category, name and SKU checks, and
   * the record saved with the body's own images, before any upload.
   */
  function FirstSaved(products: map<Id, Product>, categories: set<Id>, body: Body, now: nat, draws: seq<real>): (r: Outcome<Product>)
    requires Shaped(body) && DrawsSuffice(products, body, now, draws)
    ensures r.Ok? ==> r.value.name == Get(body, "name").s && r.value.category == Get(body, "category").s
    ensures r.Ok? ==> IsObjectId(r.value.category) && r.value.category in categories && !NameTaken(products, r.value.name, r.value.category)
    ensures r.Ok? ==> Sku.FirstFree(r.value.category, r.value.name, Sku.Stamp(now), draws, Skus(products)) == Some(r.value.sku)
    ensures r.Ok? ==> r.value.sku !in Skus(products)
    ensures r.Ok? ==> Some(r.value.images) == ImagesCast(Get(body, "images"), [])
    ensures r.Ok? ==> r.value.finalPrice == FinalPrice(r.value.price, DiscountOf(Get(body, "discount")))
    ensures r.Ok? && Get(body, "price").Num? ==> r.value.price == Get(body, "price").x
  {
    var name, category := Get(body, "name").s, Get(body, "category").s;
    // Category.findById casts the id: a malformed one throws a CastError.
    if !IsObjectId(category) then Unexpected()
    else if category !in categories then Fail(ApiError(NOT_FOUND, INVALID_CATEGORY_MESSAGE))
    else if NameTaken(products, name, category) then Fail(ApiError(CONFLICT, NAME_CONFLICT_MESSAGE))
    else
      var sku := Sku.FirstFree(category, name, Sku.Stamp(now), draws, Skus(products));
      // An absent price takes the schema default 0; a price or images value Mongoose cannot cast fails the save.
      var price := if Get(body, "price").Undefined? then Some(0.0) else PriceNumber(Get(body, "price"));
      var images := ImagesCast(Get(body, "images"), []);
      if price.None? || images.None? then Unexpected()
      else Ok(NewProduct(body, price.value, images.value, sku.value))
  }

  /**
   * `createProduct` after the body is accepted and an image is uploaded: the
   * first save, then the images replaced by the uploads' URLs.
   */
  function CreateChecked(products: map<Id, Product>, categories: set<Id>, body: Body, uploads: seq<string>,
                         now: nat, draws: seq<real>): (r: Outcome<Product>)
    requires Shaped(body) && DrawsSuffice(products, body, now, draws)
    ensures r.Ok? ==> r.value.images == uploads
    ensures r.Ok? ==> r.value.name == Get(body, "name").s && r.value.category == Get(body, "category").s
    ensures r.Ok? ==> r.value.category in categories && !NameTaken(products, r.value.name, r.value.category)
    ensures r.Ok? ==> Sku.FirstFree(r.value.category, r.value.name, Sku.Stamp(now), draws, Skus(products)) == Some(r.value.sku)
    ensures r.Ok? ==> r.value.sku !in Skus(products)
    ensures r.Ok? ==> r.value.finalPrice == FinalPrice(r.value.price, DiscountOf(Get(body, "discount")))
    ensures r.Ok? && Get(body, "price").Num? ==> r.value.price == Get(body, "price").x
  {
    var first := FirstSaved(products, categories, body, now, draws);
    if first.Fail? then Fail(first.error) else Ok(first.value.(images := uploads))
  }

  /**
   * `createProduct`: the product stored, or the error thrown.  `uploads` is
   * None when the request was not multipart (`req.files` is undefined), else
   * the URL of each uploaded file; `now` and `draws` feed `generateSku`.
   */
  function CreateOutcome(products: map<Id, Product>, categories: set<Id>, body: Body, uploads: Option<seq<string>>,
                         now: nat, draws: seq<real>): (r: Outcome<Product>)
    requires DrawsSuffice(products, body, now, draws)
    ensures r.Ok? ==> ProductParse(body).Success() && uploads.Some? && uploads.value != []
    ensures r.Ok? ==> Shaped(body) && r == CreateChecked(products, categories, body, uploads.value, now, draws)
    ensures ProductParse(body).Success() && uploads.Some? && uploads.value != [] ==>
      Shaped(body) && r == CreateChecked(products, categories, body, uploads.value, now, draws)
  {
    if uploads.None? then Unexpected()
    else
      var parsed := ProductParse(body);
      if !parsed.Success() then Fail(ApiError(BAD_REQUEST, Join(parsed.issues, ',')))
      else if |uploads.value| == 0 then Fail(ApiError(BAD_REQUEST, IMAGE_REQUIRED_MESSAGE))
      else
        ProductAccepts(body);
        CreateChecked(products, categories, body, uploads.value, now, draws)
  }

  /** Create runs its checks in order: invalid body 400, no image 400, unknown category 404, same name 409. */
  lemma CreateCheckOrder(products: map<Id, Product>, categories: set<Id>, body: Body, uploads: seq<string>,
                         now: nat, draws: seq<real>, c: Id)
    requires DrawsSuffice(products, body, now, draws)
    ensures var r := CreateOutcome(products, categories, body, Some(uploads), now, draws);
      && (!ProductParse(body).Success() ==> r == Fail(ApiError(BAD_REQUEST, Join(ProductParse(body).issues, ','))))
      && (ProductParse(body).Success() && uploads == [] ==> r == Fail(ApiError(BAD_REQUEST, IMAGE_REQUIRED_MESSAGE)))
      && (ProductParse(body).Success() && uploads != [] && Get(body, "category") == Str(c) && IsObjectId(c) ==>
            && (c !in categories ==> r == Fail(ApiError(NOT_FOUND, INVALID_CATEGORY_MESSAGE)))
            && (c in categories && NameTaken(products, Get(body, "name").s, c) ==>
                  r == Fail(ApiError(CONFLICT, NAME_CONFLICT_MESSAGE))))
  {
    if ProductParse(body).Success() && uploads != [] {
      ProductAccepts(body);
    }
  }

  /** A created product has a final price between 0 and its price when its price and discount are in range. */
  lemma CreatePriceBounds(products: map<Id, Product>, categories: set<Id>, body: Body, uploads: seq<string>,
                          now: nat, draws: seq<real>)
    requires Shaped(body) && DrawsSuffice(products, body, now, draws)
    requires CreateChecked(products, categories, body, uploads, now, draws).Ok?
    requires CreateChecked(products, categories, body, uploads, now, draws).value.price >= 0.0
    requires ProductParse(body).Success()
    ensures var p := CreateChecked(products, categories, body, uploads, now, draws).value;
      0.0 <= p.finalPrice <= p.price
  {
    ProductAccepts(body);
    var p := CreateChecked(products, categories, body, uploads, now, draws).value;
    assert DiscountOk(Get(body, "discount"));
    FinalPriceBounds(p.price, DiscountOf(Get(body, "discount")));
  }

  /** Creating keeps SKUs unique and names unique per category. */
  lemma CreateKeepsConsistent(products: map<Id, Product>, categories: set<Id>, body: Body, uploads: seq<string>,
                              now: nat, draws: seq<real>, id: Id)
    requires Consistent(products) && id !in products && uploads != []
    requires Shaped(body) && DrawsSuffice(products, body, now, draws)
    requires CreateChecked(products, categories, body, uploads, now, draws).Ok?
    ensures Consistent(products[id := CreateChecked(products, categories, body, uploads, now, draws).value])
  {
    var p := CreateChecked(products, categories, body, uploads, now, draws).value;
    var q := products[id := p];
    forall a, b | a in q && b in q && a != b
      ensures q[a].sku != q[b].sku
    {
      if a == id { assert q[b].sku in Skus(products); }
      else if b == id { assert q[a].sku in Skus(products); }
    }
  }

  /** Storing the record of the first save keeps SKUs unique and names unique per category. */
  lemma FirstSaveKeepsConsistent(products: map<Id, Product>, categories: set<Id>, body: Body,
                                 now: nat, draws: seq<real>, id: Id)
    requires Consistent(products) && id !in products
    requires Shaped(body) && DrawsSuffice(products, body, now, draws)
    requires FirstSaved(products, categories, body, now, draws).Ok?
    ensures Consistent(products[id := FirstSaved(products, categories, body, now, draws).value])
  {
    var p := FirstSaved(products, categories, body, now, draws).value;
    var q := products[id := p];
    forall a, b | a in q && b in q && a != b
      ensures q[a].sku != q[b].sku
    {
      if a == id { assert q[b].sku in Skus(products); }
      else if b == id { assert q[a].sku in Skus(products); }
    }
  }

  /**
   * A create whose upload failed after the first save leaves its record
   * stored, so sending the same body again is answered 409 whatever is
   * uploaded the second time.
   */
  lemma FailedUploadBlocksRetry(products: map<Id, Product>, categories: set<Id>, body: Body, now: nat, draws: seq<real>,
                                id: Id, uploads: seq<string>, now2: nat, draws2: seq<real>)
    requires Shaped(body) && DrawsSuffice(products, body, now, draws)
    requires FirstSaved(products, categories, body, now, draws).Ok?
    requires DrawsSuffice(products[id := FirstSaved(products, categories, body, now, draws).value], body, now2, draws2)
    ensures CreateChecked(products[id := FirstSaved(products, categories, body, now, draws).value], categories, body, uploads, now2, draws2)
            == Fail(ApiError(CONFLICT, NAME_CONFLICT_MESSAGE))
  {
    var p := FirstSaved(products, categories, body, now, draws).value;
    var q := products[id := p];
    assert q[id] == p;
    assert NameTaken(q, Get(body, "name").s, Get(body, "category").s);
  }

  // ---------------------------------------------------------------- update

  /** `Number(v)` for a price value Mongoose can cast, the fallback otherwise. */
  function PriceOr(v: Value, fallback: real): real
  {
    if PriceNumber(v).Some? then PriceNumber(v).value else fallback
  }

  /**
   * The recomputation before `Object.assign`: when a price or a discount is
   * sent, `finalPrice` is recomputed from the sent values, each falling back
   * to the stored one (`??`); nothing else changes.
   */
  function Repriced(p: Product, body: Body): (q: Product)
    ensures q == p.(finalPrice := q.finalPrice)
    ensures Get(body, "price").Undefined? && Get(body, "discount").Undefined? ==> q == p
  {
    var priceV, discountV := Get(body, "price"), Get(body, "discount");
    if priceV.Undefined? && discountV.Undefined? then p
    else
      var price := if priceV.Undefined? || priceV.Null? then p.price else PriceOr(priceV, p.price);
      var discount := if discountV.Num? then discountV.x else if p.discount.Some? then p.discount.value else 0.0;
      p.(finalPrice := FinalPrice(price, discount))
  }

  /**
   * `Object.assign(product, parseBody.data)` and the save: every field the
   * body holds replaces the stored one; None when Mongoose cannot cast a value.
   */
  function Assigned(p: Product, body: Body): (r: Option<Product>)
    ensures r.Some? <==>
      (Get(body, "price").Undefined? || PriceNumber(Get(body, "price")).Some?) &&
      ImagesCast(Get(body, "images"), p.images).Some?
    ensures r.Some? ==> r.value.sku == p.sku && r.value.images == ImagesCast(Get(body, "images"), p.images).value
    ensures r.Some? ==> r.value.name == if Get(body, "name").Str? then Get(body, "name").s else p.name
    ensures r.Some? ==> r.value.category == if Get(body, "category").Str? then Get(body, "category").s else p.category
  {
    var priceV, discountV := Get(body, "price"), Get(body, "discount");
    var price := if priceV.Undefined? then Some(p.price) else PriceNumber(priceV);
    var images := ImagesCast(Get(body, "images"), p.images);
    if price.None? || images.None? then None
    else
      Some(p.(
        name := StrOr(Get(body, "name"), p.name),
        price := price.value,
        discount := if discountV.Num? then Some(discountV.x) else p.discount,
        finalPrice := NumOr(Get(body, "finalPrice"), p.finalPrice),
        quantity := StrOr(Get(body, "quantity"), p.quantity),
        description := if Get(body, "description").Str? then Some(Get(body, "description").s) else p.description,
        stock := NumOr(Get(body, "stock"), p.stock),
        images := images.value,
        isActive := FlagOr(Get(body, "isActive"), p.isActive),
        category := StrOr(Get(body, "category"), p.category),
        isWeekendDeal := FlagOr(Get(body, "isWeekendDeal"), p.isWeekendDeal),
        isFeatured := FlagOr(Get(body, "isFeatured"), p.isFeatured)))
  }

  /** The product `updateProduct` saves: repriced, assigned, then the new uploads appended after the images kept. */
  function Applied(p: Product, body: Body, uploads: seq<string>): (r: Option<Product>)
    ensures r.Some? <==>
      (Get(body, "price").Undefined? || PriceNumber(Get(body, "price")).Some?) &&
      ImagesCast(Get(body, "images"), p.images).Some?
    ensures r.Some? ==> r.value.sku == p.sku
    ensures r.Some? ==> r.value.images == ImagesCast(Get(body, "images"), p.images).value + uploads
    ensures r.Some? ==> r.value.name == if Get(body, "name").Str? then Get(body, "name").s else p.name
    ensures r.Some? ==> r.value.category == if Get(body, "category").Str? then Get(body, "category").s else p.category
  {
    match Assigned(Repriced(p, body), body)
    case None => None
    case Some(q) => Some(q.(images := q.images + uploads))
  }

  /** The final price is the body's when sent, recomputed when only a price or a discount is sent, else kept. */
  lemma AppliedFinalPrice(p: Product, body: Body, uploads: seq<string>)
    requires Applied(p, body, uploads).Some?
    ensures var q, priceV, discountV := Applied(p, body, uploads).value, Get(body, "price"), Get(body, "discount");
      && (Get(body, "finalPrice").Num? ==> q.finalPrice == Get(body, "finalPrice").x)
      && (!Get(body, "finalPrice").Num? && priceV.Undefined? && discountV.Undefined? ==> q.finalPrice == p.finalPrice)
      && (!Get(body, "finalPrice").Num? && priceV.Undefined? && discountV.Num? ==>
            q.finalPrice == FinalPrice(p.price, discountV.x))
      && (!Get(body, "finalPrice").Num? && priceV.Num? && discountV.Undefined? ==>
            q.finalPrice == FinalPrice(priceV.x, if p.discount.Some? then p.discount.value else 0.0))
  {
  }

  /** `updateProduct` after the body is accepted and holds no sku: the lookup, category, name and save steps. */
  function UpdateChecked(products: map<Id, Product>, categories: set<Id>, id: Id, body: Body, uploads: seq<string>): (r: Outcome<Product>)
    ensures r.Ok? ==> id in products && Applied(products[id], body, uploads) == Some(r.value)
    ensures r.Ok? ==> r.value.category == products[id].category || r.value.category in categories
    ensures r.Ok? ==> !OtherInCategory(products, id, if Get(body, "name").Str? then Some(Get(body, "name").s) else None,
                                       r.value.category)
  {
    var categoryV := Get(body, "category");
    if !IsObjectId(id) then Unexpected()
    else if id !in products then Fail(ApiError(NOT_FOUND, NOT_FOUND_MESSAGE))
    else if categoryV.Str? && !IsObjectId(categoryV.s) then Unexpected()
    else if categoryV.Str? && categoryV.s !in categories then Fail(ApiError(NOT_FOUND, INVALID_CATEGORY_MESSAGE))
    else
      var target := if categoryV.Str? then categoryV.s else products[id].category;
      var name := if Get(body, "name").Str? then Some(Get(body, "name").s) else None;
      if OtherInCategory(products, id, name, target) then Fail(ApiError(CONFLICT, NAME_CONFLICT_MESSAGE))
      else match Applied(products[id], body, uploads)
        case None => Unexpected()
        case Some(q) => Ok(q)
  }

  /** `updateProduct(productId)`: the updated product, or the error thrown.  `uploads` is empty when `req.files` is not an array. */
  function UpdateOutcome(products: map<Id, Product>, categories: set<Id>, id: Id, body: Body, uploads: seq<string>): (r: Outcome<Product>)
    ensures !ProductUpdateParse(body).Success() ==>
      r == Fail(ApiError(BAD_REQUEST, Join(ProductUpdateParse(body).issues, ',')))
    ensures ProductUpdateParse(body).Success() && !Get(body, "sku").Undefined? ==>
      r == Fail(ApiError(BAD_REQUEST, SKU_UPDATE_MESSAGE))
    ensures ProductUpdateParse(body).Success() && Get(body, "sku").Undefined? ==>
      r == UpdateChecked(products, categories, id, body, uploads)
  {
    var parsed := ProductUpdateParse(body);
    if !parsed.Success() then Fail(ApiError(BAD_REQUEST, Join(parsed.issues, ',')))
    else
      ProductUpdateAccepts(body);
      if Truthy(Get(body, "sku")) then Fail(ApiError(BAD_REQUEST, SKU_UPDATE_MESSAGE))
      else UpdateChecked(products, categories, id, body, uploads)
  }

  /** Without a name in the body, any other product of the target category is a conflict. */
  lemma UpdateWithoutNameConflicts(products: map<Id, Product>, categories: set<Id>, id: Id, body: Body, uploads: seq<string>, k: Id)
    requires Get(body, "name").Undefined? && Get(body, "category").Undefined?
    requires IsObjectId(id) && id in products
    requires k in products && k != id && products[k].category == products[id].category
    ensures UpdateChecked(products, categories, id, body, uploads) == Fail(ApiError(CONFLICT, NAME_CONFLICT_MESSAGE))
  {
  }

  /** Updating keeps SKUs unique and names unique per category. */
  lemma UpdateKeepsConsistent(products: map<Id, Product>, categories: set<Id>, id: Id, body: Body, uploads: seq<string>)
    requires Consistent(products)
    requires UpdateChecked(products, categories, id, body, uploads).Ok?
    ensures Consistent(products[id := UpdateChecked(products, categories, id, body, uploads).value])
  {
    var q := UpdateChecked(products, categories, id, body, uploads).value;
    var m := products[id := q];
    forall a, b | a in m && b in m && a != b
      ensures m[a].name != m[b].name || m[a].category != m[b].category
    {
      if a == id { assert b in products && b != id; }
      else if b == id { assert a in products && a != id; }
    }
  }

  /**
   * An update whose body holds only an `images` array of strings, sent
   * without files, replaces the product's images by exactly that list.
   */
  lemma UpdateReplacesImages(products: map<Id, Product>, categories: set<Id>, id: Id, vs: seq<Value>, ss: seq<string>)
    requires IsObjectId(id) && id in products
    requires forall k :: k in products && k != id ==> products[k].category != products[id].category
    requires |vs| == |ss| && forall i :: 0 <= i < |vs| ==> vs[i] == Str(ss[i])
    ensures UpdateOutcome(products, categories, id, map["images" := Arr(vs)], []) == Ok(products[id].(images := ss))
  {
    var body: Body := map["images" := Arr(vs)];
    ImagesOnlyBodyAccepted(vs);
    AppliedImagesOnly(products[id], vs, ss);
    assert !OtherInCategory(products, id, None, products[id].category);
    assert UpdateChecked(products, categories, id, body, []) == Ok(products[id].(images := ss));
  }

  /** A body holding only `images` passes the update schema and sends no other field. */
  lemma ImagesOnlyBodyAccepted(vs: seq<Value>)
    ensures ProductUpdateParse(map["images" := Arr(vs)]).Success()
    ensures var body: Body := map["images" := Arr(vs)];
      Get(body, "sku").Undefined? && Get(body, "name").Undefined? && Get(body, "category").Undefined?
  {
    ProductUpdateAccepts(map["images" := Arr(vs)]);
  }

  /** Saving a body holding only an `images` array of strings replaces the images and nothing else. */
  lemma AppliedImagesOnly(p: Product, vs: seq<Value>, ss: seq<string>)
    requires |vs| == |ss| && forall i :: 0 <= i < |vs| ==> vs[i] == Str(ss[i])
    ensures Applied(p, map["images" := Arr(vs)], []) == Some(p.(images := ss))
  {
    var body: Body := map["images" := Arr(vs)];
    StringsCastOfStrings(vs, ss);
    assert ImagesCast(Get(body, "images"), p.images) == Some(ss);
    assert Repriced(p, body) == p;
    assert Assigned(p, body) == Some(p.(images := ss));
    assert ss + [] == ss;
  }

  /**
   * An update can leave a product with no image, so that every product
   * keeping an image is not an invariant of the collection.
   */
  lemma UpdateCanEmptyImages(products: map<Id, Product>, categories: set<Id>, id: Id)
    requires IsObjectId(id) && id in products
    requires forall k :: k in products && k != id ==> products[k].category != products[id].category
    ensures UpdateOutcome(products, categories, id, map["images" := Arr([])], []) == Ok(products[id].(images := []))
    ensures !AllHaveImages(products[id := products[id].(images := [])])
  {
    UpdateReplacesImages(products, categories, id, [], []);
    var m := products[id := products[id].(images := [])];
    assert id in m && m[id].images == [];
  }

  /**
   * The repeated URL the image delete mishandles is reachable: an update
   * stores `[u, u]`, after which deleting u leaves the product no image.
   */
  lemma UpdateThenDeleteEmpties(products: map<Id, Product>, categories: set<Id>, id: Id, u: string)
    requires IsObjectId(id) && id in products && u != ""
    requires forall k :: k in products && k != id ==> products[k].category != products[id].category
    ensures UpdateOutcome(products, categories, id, map["images" := Arr([Str(u), Str(u)])], []) == Ok(products[id].(images := [u, u]))
    ensures DeleteImageOutcome(products[id := products[id].(images := [u, u])], id, Str(u)) == Ok([])
  {
    UpdateReplacesImages(products, categories, id, [Str(u), Str(u)], [u, u]);
    DuplicateImageEmptiesProduct(products[id := products[id].(images := [u, u])], id, u);
  }

  // ---------------------------------------------------------------- getProductById

  /** `getProductById(productId)`. */
  function GetOutcome(products: map<Id, Product>, id: Option<Id>): (r: Outcome<Product>)
    ensures r.Ok? <==> id.Some? && id.value != "" && IsObjectId(id.value) && id.value in products
    ensures r.Ok? ==> r.value == products[id.value]
    ensures id.Some? && id.value != "" && !IsObjectId(id.value) ==> r == Fail(ApiError(NOT_FOUND, "Invalid Product ID format"))
  {
    if id.None? || id.value == "" then Fail(ApiError(BAD_REQUEST, "Product ID is required"))
    else if !IsObjectId(id.value) then Fail(ApiError(NOT_FOUND, "Invalid Product ID format"))
    else if id.value !in products then Fail(ApiError(NOT_FOUND, DELETE_NOT_FOUND_MESSAGE))
    else Ok(products[id.value])
  }

  // ---------------------------------------------------------------- delete

  /** `deleteProducts`: `id` is `req.params.id`, `ids` is `req.body.ids` when it is an array of strings. */
  function DeleteOutcome(products: map<Id, Product>, id: Option<Id>, ids: Option<seq<Id>>): (r: Outcome<string>)
    ensures id.Some? && id.value != "" ==> (r.Ok? <==> IsObjectId(id.value) && id.value in products)
    ensures id.Some? && id.value != "" && IsObjectId(id.value) && id.value !in products ==> r == Fail(ApiError(NOT_FOUND, DELETE_NOT_FOUND_MESSAGE))
    ensures id.Some? && id.value != "" && r.Ok? ==> r.value == DELETED_MESSAGE
    ensures !(id.Some? && id.value != "") && ids.Some? && r.Ok? ==> r.value == NatToDecimal(|ids.value|) + " categories deleted successfully"
    ensures !(id.Some? && id.value != "") && ids.None? ==> r == Fail(ApiError(BAD_REQUEST, INVALID_REQUEST_MESSAGE))
  {
    if id.Some? && id.value != "" then
      if !IsObjectId(id.value) then Unexpected()
      else if id.value !in products then Fail(ApiError(NOT_FOUND, DELETE_NOT_FOUND_MESSAGE))
      else Ok(DELETED_MESSAGE)
    else if ids.Some? then
      if |ids.value| == 0 then Fail(ApiError(BAD_REQUEST, IDS_MESSAGE))
      else if exists i :: 0 <= i < |ids.value| && !IsObjectId(ids.value[i]) then Unexpected()
      else if |Matched(ids.value, products.Keys)| != |ids.value| then Fail(ApiError(NOT_FOUND, MISSING_IDS_MESSAGE))
      // The message says "categories", as the source writes it.
      else Ok(NatToDecimal(|ids.value|) + " categories deleted successfully")
    else Fail(ApiError(BAD_REQUEST, INVALID_REQUEST_MESSAGE))
  }

  /** The ids a successful delete removes. */
  function DeleteTargets(id: Option<Id>, ids: Option<seq<Id>>): set<Id>
  {
    if id.Some? && id.value != "" then {id.value}
    else if ids.Some? then Elements(ids.value)
    else {}
  }

  /** The batch delete succeeds exactly when the list is non-empty, distinct, and every id is well formed and stored. */
  lemma BatchDeleteAllOrNothing(products: map<Id, Product>, ids: seq<Id>)
    ensures DeleteOutcome(products, None, Some(ids)).Ok? <==>
      |ids| > 0 && Distinct(ids) && forall i :: 0 <= i < |ids| ==> IsObjectId(ids[i]) && ids[i] in products
    ensures |ids| == 0 ==> DeleteOutcome(products, None, Some(ids)) == Fail(ApiError(BAD_REQUEST, IDS_MESSAGE))
    ensures ((exists i :: 0 <= i < |ids| && ids[i] !in products) && (forall i :: 0 <= i < |ids| ==> IsObjectId(ids[i])))
      ==> DeleteOutcome(products, None, Some(ids)) == Fail(ApiError(NOT_FOUND, MISSING_IDS_MESSAGE))
  {
    MatchedAll(ids, products.Keys);
  }

  /** A successful delete removes only stored products, and removing products keeps the store consistent. */
  lemma DeleteKeepsConsistent(products: map<Id, Product>, id: Option<Id>, ids: Option<seq<Id>>)
    requires Consistent(products)
    requires DeleteOutcome(products, id, ids).Ok?
    ensures DeleteTargets(id, ids) <= products.Keys && DeleteTargets(id, ids) != {}
    ensures Consistent(products - DeleteTargets(id, ids))
  {
    if !(id.Some? && id.value != "") {
      BatchDeleteAllOrNothing(products, ids.value);
      assert ids.value[0] in DeleteTargets(id, ids);
    }
  }

  // ---------------------------------------------------------------- deleteProductImage

  /** `images.filter((img) => img !== url)`. */
  function Without(images: seq<string>, url: string): (r: seq<string>)
    ensures forall x :: x in r <==> x in images && x != url
    ensures |r| <= |images|
  {
    if images == [] then []
    else (if images[0] != url then [images[0]] else []) + Without(images[1..], url)
  }

  /** Removing a URL that occurs once removes exactly one image. */
  lemma {:induction false} WithoutSingle(images: seq<string>, url: string)
    requires url in images
    requires forall i, j :: 0 <= i < j < |images| ==> images[i] != images[j]
    ensures |Without(images, url)| == |images| - 1
  {
    if images[0] == url {
      assert url !in images[1..];
      WithoutAbsent(images[1..], url);
    } else {
      WithoutSingle(images[1..], url);
    }
  }

  lemma {:induction false} WithoutAbsent(images: seq<string>, url: string)
    requires url !in images
    ensures Without(images, url) == images
  {
    if images != [] {
      WithoutAbsent(images[1..], url);
    }
  }

  /** The product image checks as written: the only guard is a list of exactly one image. */
  function DeleteImageOutcome(products: map<Id, Product>, id: Id, imageUrl: Value): (r: Outcome<seq<string>>)
    ensures r.Ok? ==> id in products && imageUrl.Str? && imageUrl.s in products[id].images
    ensures r.Ok? ==> r.value == Without(products[id].images, imageUrl.s)
  {
    if !Truthy(imageUrl) then Fail(ApiError(BAD_REQUEST, IMAGE_URL_REQUIRED_MESSAGE))
    else if !IsObjectId(id) then Unexpected()
    else if id !in products then Fail(ApiError(NOT_FOUND, NOT_FOUND_MESSAGE))
    else if !(imageUrl.Str? && imageUrl.s in products[id].images) then Fail(ApiError(NOT_FOUND, IMAGE_NOT_FOUND_MESSAGE))
    else if |products[id].images| == 1 then Fail(ApiError(BAD_REQUEST, LAST_IMAGE_MESSAGE))
    else Ok(Without(products[id].images, imageUrl.s))
  }

  /** As written, a product whose two images are the same URL is left with no image at all. */
  lemma DuplicateImageEmptiesProduct(products: map<Id, Product>, id: Id, u: string)
    requires IsObjectId(id) && id in products && u != ""
    requires products[id].images == [u, u]
    ensures DeleteImageOutcome(products, id, Str(u)) == Ok([])
  {
    assert Without([u, u], u) == Without([u], u);
  }

  /** The intended guard: refuse whenever removing the URL would leave no image. */
  function DeleteImageIntended(products: map<Id, Product>, id: Id, imageUrl: Value): (r: Outcome<seq<string>>)
    ensures r.Ok? ==> id in products && imageUrl.Str? && imageUrl.s in products[id].images
    ensures r.Ok? ==> r.value == Without(products[id].images, imageUrl.s) && r.value != []
  {
    if !Truthy(imageUrl) then Fail(ApiError(BAD_REQUEST, IMAGE_URL_REQUIRED_MESSAGE))
    else if !IsObjectId(id) then Unexpected()
    else if id !in products then Fail(ApiError(NOT_FOUND, NOT_FOUND_MESSAGE))
    else if !(imageUrl.Str? && imageUrl.s in products[id].images) then Fail(ApiError(NOT_FOUND, IMAGE_NOT_FOUND_MESSAGE))
    else if Without(products[id].images, imageUrl.s) == [] then Fail(ApiError(BAD_REQUEST, LAST_IMAGE_MESSAGE))
    else Ok(Without(products[id].images, imageUrl.s))
  }

  /** When the images are distinct, the intended guard and the written one agree. */
  lemma DeleteImageAgreesOnDistinct(products: map<Id, Product>, id: Id, imageUrl: Value)
    requires id in products
    requires forall i, j :: 0 <= i < j < |products[id].images| ==> products[id].images[i] != products[id].images[j]
    ensures DeleteImageIntended(products, id, imageUrl) == DeleteImageOutcome(products, id, imageUrl)
  {
    var images := products[id].images;
    if imageUrl.Str? && imageUrl.s in images {
      WithoutSingle(images, imageUrl.s);
    }
  }

  // ---------------------------------------------------------------- getAllProduct filters

  /** One condition of the `$and` list. */
  datatype Condition =
    | Like(key: string, pattern: Value)      // { [key]: { $regex: value, $options: "i" } }
    | PriceIs(price: real)                  // { price: { $eq: parseFloat(value) } }
    | CategoryIs(category: Id)              // { category: value }
    | FlagIs(key: string, flag: bool)       // { [key]: value === "true" || value === true }
    | EqualTo(key: string, value: Value)    // { [key]: { $eq: value } }

  /** The `where` condition of the query. */
  datatype Query = Everything | And(conditions: seq<Condition>)

  /**
   * The condition one filter entry adds, if any.  `parseFloat` is the
   * JavaScript number parse, None for NaN.
   */
  function ConditionFor(key: string, v: Value, parseFloat: Value -> Option<real>): (c: Option<Condition>)
    ensures !Truthy(v) ==> c.None?
    ensures Truthy(v) && (key == "name" || key == "sku") ==> c == Some(Like(key, v))
    ensures Truthy(v) && (key == "isWeekendDeal" || key == "isFeatured") ==>
      c == Some(FlagIs(key, v == Str("true") || v == Bool(true)))
    ensures key == "category" ==> (c.Some? <==> v.Str? && IsObjectId(v.s))
    ensures Truthy(v) && key !in ["name", "sku", "price", "category", "isWeekendDeal", "isFeatured"] ==>
      c == Some(EqualTo(key, v))
  {
    if !Truthy(v) then None
    else if key == "name" || key == "sku" then Some(Like(key, v))
    else if key == "price" then
      match parseFloat(v)
      case Some(x) => Some(PriceIs(x))
      case None => None
    else if key == "category" then
      if v.Str? && IsObjectId(v.s) then Some(CategoryIs(v.s)) else None
    else if key == "isWeekendDeal" || key == "isFeatured" then Some(FlagIs(key, v == Str("true") || v == Bool(true)))
    else Some(EqualTo(key, v))
  }

  /** The conditions of the filter entries, in order. */
  function Conditions(filters: seq<(string, Value)>, parseFloat: Value -> Option<real>): (cs: seq<Condition>)
    ensures |cs| <= |filters|
  {
    if filters == [] then []
    else
      var last := filters[|filters| - 1];
      Conditions(filters[..|filters| - 1], parseFloat) +
        (match ConditionFor(last.0, last.1, parseFloat) case Some(c) => [c] case None => [])
  }

  /** Every condition comes from a filter entry, and every entry that yields a condition contributes it. */
  lemma {:induction false} ConditionsFromEntries(filters: seq<(string, Value)>, parseFloat: Value -> Option<real>)
    ensures forall c :: c in Conditions(filters, parseFloat) <==>
      exists i :: 0 <= i < |filters| && ConditionFor(filters[i].0, filters[i].1, parseFloat) == Some(c)
  {
    if filters != [] {
      var init := filters[..|filters| - 1];
      ConditionsFromEntries(init, parseFloat);
      forall c
        ensures c in Conditions(filters, parseFloat) <==>
          exists i :: 0 <= i < |filters| && ConditionFor(filters[i].0, filters[i].1, parseFloat) == Some(c)
      {
        if c in Conditions(init, parseFloat) {
          var i :| 0 <= i < |init| && ConditionFor(init[i].0, init[i].1, parseFloat) == Some(c);
          assert filters[i] == init[i];
        }
        if exists i :: 0 <= i < |filters| && ConditionFor(filters[i].0, filters[i].1, parseFloat) == Some(c) {
          var i :| 0 <= i < |filters| && ConditionFor(filters[i].0, filters[i].1, parseFloat) == Some(c);
          if i < |init| { assert init[i] == filters[i]; }
        }
      }
    }
  }

  /** `andConditions.length > 0 ? { $and: andConditions } : {}`. */
  function QueryOf(conditions: seq<Condition>): (q: Query)
    ensures q.Everything? <==> conditions == []
  {
    if |conditions| > 0 then And(conditions) else Everything
  }

  /** The query matches everything exactly when no filter entry yields a condition. */
  lemma EverythingWhenNoCondition(filters: seq<(string, Value)>, parseFloat: Value -> Option<real>)
    ensures QueryOf(Conditions(filters, parseFloat)).Everything? <==>
      forall i :: 0 <= i < |filters| ==> ConditionFor(filters[i].0, filters[i].1, parseFloat).None?
  {
    ConditionsFromEntries(filters, parseFloat);
    var cs := Conditions(filters, parseFloat);
    if cs != [] {
      assert cs[0] in cs;
    }
    if exists i :: 0 <= i < |filters| && ConditionFor(filters[i].0, filters[i].1, parseFloat).Some? {
      var i :| 0 <= i < |filters| && ConditionFor(filters[i].0, filters[i].1, parseFloat).Some?;
      assert ConditionFor(filters[i].0, filters[i].1, parseFloat).value in cs;
    }
  }

  /** The `forEach` of `getAllProduct`: each entry pushes its condition onto `andConditions`. */
  method FilterQuery(filters: seq<(string, Value)>, parseFloat: Value -> Option<real>) returns (q: Query)
    ensures q == QueryOf(Conditions(filters, parseFloat))
  {
    var andConditions: seq<Condition> := [];
    var i := 0;
    while i < |filters|
      invariant 0 <= i <= |filters|
      invariant andConditions == Conditions(filters[..i], parseFloat)
    {
      var (key, v) := filters[i];
      assert filters[..i + 1][..i] == filters[..i];
      if Truthy(v) {
        if key == "name" || key == "sku" {
          andConditions := andConditions + [Like(key, v)];
        } else if key == "price" {
          var price := parseFloat(v);
          if price.Some? {
            andConditions := andConditions + [PriceIs(price.value)];
          }
        } else if key == "category" {
          if v.Str? && IsObjectId(v.s) {
            andConditions := andConditions + [CategoryIs(v.s)];
          }
        } else if key == "isWeekendDeal" || key == "isFeatured" {
          var flag := v == Str("true") || v == Bool(true);
          andConditions := andConditions + [FlagIs(key, flag)];
        } else {
          andConditions := andConditions + [EqualTo(key, v)];
        }
      }
      i := i + 1;
    }
    assert filters[..i] == filters;
    q := if |andConditions| > 0 then And(andConditions) else Everything;
  }

  // ---------------------------------------------------------------- the collection

  /** The Product collection. */
  class ProductStore {
    var products: map<Id, Product>

    predicate Valid()
      reads this
    {
      Consistent(products)
    }

    constructor()
      ensures products == map[] && Valid()
    {
      products := map[];
    }

    /**
     * `createProduct`: saves the product with the body's images, then sets
     * its images to the uploaded URLs; `freshId` is the ObjectId MongoDB
     * gives the new document.
     */
    method Create(categories: set<Id>, body: Body, uploads: Option<seq<string>>, now: nat, draws: seq<real>, freshId: Id)
      returns (r: Outcome<Product>)
      requires Valid() && freshId !in products && DrawsSuffice(products, body, now, draws)
      modifies this
      ensures r == CreateOutcome(old(products), categories, body, uploads, now, draws)
      ensures products == if r.Ok? then old(products)[freshId := r.value] else old(products)
      ensures Valid()
    {
      if uploads.None? {
        return Unexpected();
      }
      var parsed := ProductParse(body);
      if !parsed.Success() {
        return Fail(ApiError(BAD_REQUEST, Join(parsed.issues, ',')));
      }
      if |uploads.value| == 0 {
        return Fail(ApiError(BAD_REQUEST, IMAGE_REQUIRED_MESSAGE));
      }
      ProductAccepts(body);
      r := CreateAccepted(categories, body, uploads.value, now, draws, freshId);
    }

    /**
     * The checks of `createProduct` after the body is accepted and an image
     * is uploaded, and the record it ends up saving, with the uploaded images
     * in place of the body's; the collection is only read.
     */
    method Prepare(categories: set<Id>, body: Body, uploads: seq<string>, now: nat, draws: seq<real>)
      returns (r: Outcome<Product>)
      requires Shaped(body) && DrawsSuffice(products, body, now, draws)
      ensures r == CreateChecked(products, categories, body, uploads, now, draws)
    {
      var name, category := Get(body, "name").s, Get(body, "category").s;
      if !IsObjectId(category) {
        return Unexpected();
      }
      if category !in categories {
        return Fail(ApiError(NOT_FOUND, INVALID_CATEGORY_MESSAGE));
      }
      var existing := exists k | k in products :: products[k].name == name && products[k].category == category;
      if existing {
        return Fail(ApiError(CONFLICT, NAME_CONFLICT_MESSAGE));
      }
      var sku := Sku.GenerateSku(category, name, now, draws, Skus(products));
      var price := if Get(body, "price").Undefined? then Some(0.0) else PriceNumber(Get(body, "price"));
      var images := ImagesCast(Get(body, "images"), []);
      if price.None? || images.None? {
        return Unexpected();
      }
      r := Ok(NewProduct(body, price.value, images.value, sku).(images := uploads));
    }

    /** The steps of `createProduct` after the body is accepted and an image is uploaded. */
    method CreateAccepted(categories: set<Id>, body: Body, uploads: seq<string>, now: nat, draws: seq<real>, freshId: Id)
      returns (r: Outcome<Product>)
      requires Valid() && freshId !in products && uploads != []
      requires Shaped(body) && DrawsSuffice(products, body, now, draws)
      modifies this
      ensures r == CreateChecked(old(products), categories, body, uploads, now, draws)
      ensures products == if r.Ok? then old(products)[freshId := r.value] else old(products)
      ensures Valid()
    {
      r := Prepare(categories, body, uploads, now, draws);
      if r.Ok? {
        CreateKeepsConsistent(products, categories, body, uploads, now, draws, freshId);
        products := products[freshId := r.value];
      }
    }

    /**
     * `createProduct` when `uploadMultipleOnCloudinary` throws after the
     * first `product.save()`: the record stays stored with the body's own
     * images, and the plain Error is answered 500.
     */
    method CreateUploadFails(categories: set<Id>, body: Body, now: nat, draws: seq<real>, freshId: Id)
      returns (r: Outcome<Product>)
      requires Valid() && freshId !in products
      requires Shaped(body) && DrawsSuffice(products, body, now, draws)
      modifies this
      ensures var f := FirstSaved(old(products), categories, body, now, draws);
        && (f.Ok? ==> r == Unexpected() && products == old(products)[freshId := f.value])
        && (f.Fail? ==> r == f && products == old(products))
      ensures Valid()
    {
      var checked := Prepare(categories, body, [], now, draws);
      if checked.Fail? {
        return Fail(checked.error);
      }
      var images := ImagesCast(Get(body, "images"), []);
      var first := checked.value.(images := images.value);
      assert Ok(first) == FirstSaved(products, categories, body, now, draws);
      FirstSaveKeepsConsistent(products, categories, body, now, draws, freshId);
      products := products[freshId := first];
      r := Unexpected();
    }

    /** `updateProduct(productId)`. */
    method Update(categories: set<Id>, id: Id, body: Body, uploads: seq<string>) returns (r: Outcome<Product>)
      requires Valid()
      modifies this
      ensures r == UpdateOutcome(old(products), categories, id, body, uploads)
      ensures products == if r.Ok? then old(products)[id := r.value] else old(products)
      ensures Valid()
    {
      var parsed := ProductUpdateParse(body);
      if !parsed.Success() {
        return Fail(ApiError(BAD_REQUEST, Join(parsed.issues, ',')));
      }
      ProductUpdateAccepts(body);
      if Truthy(Get(body, "sku")) {
        return Fail(ApiError(BAD_REQUEST, SKU_UPDATE_MESSAGE));
      }
      r := UpdateAccepted(categories, id, body, uploads);
    }

    /** The steps of `updateProduct` after the body is accepted and holds no sku. */
    method UpdateAccepted(categories: set<Id>, id: Id, body: Body, uploads: seq<string>) returns (r: Outcome<Product>)
      requires Valid()
      modifies this
      ensures r == UpdateChecked(old(products), categories, id, body, uploads)
      ensures products == if r.Ok? then old(products)[id := r.value] else old(products)
      ensures Valid()
    {
      r := UpdateDecision(categories, id, body, uploads);
      if r.Ok? {
        UpdateKeepsConsistent(products, categories, id, body, uploads);
        products := products[id := r.value];
      }
    }

    /**
     * The checks of `updateProduct` after the body is accepted and holds no
     * sku, and the record it saves; the collection is only read.
     */
    method UpdateDecision(categories: set<Id>, id: Id, body: Body, uploads: seq<string>) returns (r: Outcome<Product>)
      ensures r == UpdateChecked(products, categories, id, body, uploads)
    {
      if !IsObjectId(id) {
        return Unexpected();
      }
      if id !in products {
        return Fail(ApiError(NOT_FOUND, NOT_FOUND_MESSAGE));
      }
      var product := products[id];
      var categoryV := Get(body, "category");
      if categoryV.Str? {
        if !IsObjectId(categoryV.s) {
          return Unexpected();
        }
        if categoryV.s !in categories {
          return Fail(ApiError(NOT_FOUND, INVALID_CATEGORY_MESSAGE));
        }
      }
      var target := if categoryV.Str? then categoryV.s else product.category;
      var name := if Get(body, "name").Str? then Some(Get(body, "name").s) else None;
      var existing := exists k | k in products :: (k != id && products[k].category == target &&
        (name.None? || products[k].name == name.value));
      if existing {
        return Fail(ApiError(CONFLICT, NAME_CONFLICT_MESSAGE));
      }
      product := Repriced(product, body);
      var saved := Assigned(product, body);
      if saved.None? {
        return Unexpected();
      }
      product := saved.value;
      if |uploads| > 0 {
        product := product.(images := product.images + uploads);
      } else {
        assert product.images + uploads == product.images;
      }
      r := Ok(product);
    }

    /** `deleteProducts`: removes the listed products, all or none. */
    method Delete(id: Option<Id>, ids: Option<seq<Id>>) returns (r: Outcome<string>)
      requires Valid()
      modifies this
      ensures r == DeleteOutcome(old(products), id, ids)
      ensures products == if r.Ok? then old(products) - DeleteTargets(id, ids) else old(products)
      ensures Valid()
    {
      if id.Some? && id.value != "" {
        if !IsObjectId(id.value) {
          return Unexpected();
        }
        if id.value !in products {
          return Fail(ApiError(NOT_FOUND, DELETE_NOT_FOUND_MESSAGE));
        }
        products := products - {id.value};
        return Ok(DELETED_MESSAGE);
      } else if ids.Some? {
        var list := ids.value;
        if |list| == 0 {
          return Fail(ApiError(BAD_REQUEST, IDS_MESSAGE));
        }
        if exists i | 0 <= i < |list| :: !IsObjectId(list[i]) {
          return Unexpected();
        }
        var existing := Matched(list, products.Keys);
        if |existing| != |list| {
          return Fail(ApiError(NOT_FOUND, MISSING_IDS_MESSAGE));
        }
        // deleteMany removes exactly the documents found, so the "could not be deleted" 500 never occurs.
        products := products - existing;
        return Ok(NatToDecimal(|list|) + " categories deleted successfully");
      } else {
        return Fail(ApiError(BAD_REQUEST, INVALID_REQUEST_MESSAGE));
      }
    }

    /**
     * `deleteProductImage(productId)` as written: the only guard refuses a
     * list of exactly one image, and the filter drops every copy of the URL.
     */
    method DeleteImage(id: Id, imageUrl: Value) returns (r: Outcome<string>)
      requires Valid()
      modifies this
      ensures var d := DeleteImageOutcome(old(products), id, imageUrl);
        && (d.Ok? ==> r == Ok(IMAGE_DELETED_MESSAGE) && products == old(products)[id := old(products)[id].(images := d.value)])
        && (d.Fail? ==> r == Fail(d.error) && products == old(products))
      ensures Valid()
    {
      if !Truthy(imageUrl) {
        return Fail(ApiError(BAD_REQUEST, IMAGE_URL_REQUIRED_MESSAGE));
      }
      if !IsObjectId(id) {
        return Unexpected();
      }
      if id !in products {
        return Fail(ApiError(NOT_FOUND, NOT_FOUND_MESSAGE));
      }
      var product := products[id];
      if !(imageUrl.Str? && imageUrl.s in product.images) {
        return Fail(ApiError(NOT_FOUND, IMAGE_NOT_FOUND_MESSAGE));
      }
      if |product.images| == 1 {
        return Fail(ApiError(BAD_REQUEST, LAST_IMAGE_MESSAGE));
      }
      product := product.(images := Without(product.images, imageUrl.s));
      products := products[id := product];
      r := Ok(IMAGE_DELETED_MESSAGE);
    }

    /** The image delete with the intended guard: a product that has an image keeps one. */
    method DeleteImageKeepingOne(id: Id, imageUrl: Value) returns (r: Outcome<string>)
      requires Valid()
      modifies this
      ensures var d := DeleteImageIntended(old(products), id, imageUrl);
        && (d.Ok? ==> r == Ok(IMAGE_DELETED_MESSAGE) && products == old(products)[id := old(products)[id].(images := d.value)])
        && (d.Fail? ==> r == Fail(d.error) && products == old(products))
      ensures id in old(products) && old(products)[id].images != [] ==> id in products && products[id].images != []
      ensures Valid()
    {
      if !Truthy(imageUrl) {
        return Fail(ApiError(BAD_REQUEST, IMAGE_URL_REQUIRED_MESSAGE));
      }
      if !IsObjectId(id) {
        return Unexpected();
      }
      if id !in products {
        return Fail(ApiError(NOT_FOUND, NOT_FOUND_MESSAGE));
      }
      var product := products[id];
      if !(imageUrl.Str? && imageUrl.s in product.images) {
        return Fail(ApiError(NOT_FOUND, IMAGE_NOT_FOUND_MESSAGE));
      }
      var remaining := Without(product.images, imageUrl.s);
      if remaining == [] {
        return Fail(ApiError(BAD_REQUEST, LAST_IMAGE_MESSAGE));
      }
      product := product.(images := remaining);
      products := products[id := product];
      r := Ok(IMAGE_DELETED_MESSAGE);
    }
  }
}
