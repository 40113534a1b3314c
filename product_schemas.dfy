/**
 * The request schemas of the product endpoints.  `productSchema` requires a
 * name of 1 to 255 characters, a quantity of 1 to 50 characters and a
 * non-empty category, and bounds the optional discount (0 to 100), final
 * price (positive), description (at most 1000 characters), stock (at least
 * 0) and sku (1 to 50 characters); `price` and `images` may be anything.
 * `productUpdateSchema` is its `.partial()`: every field optional.
 */
module ProductSchemas {
  import opened Text
  import opened Zod

  const NAME_MIN_MESSAGE: string := "Product name is required"
  const NAME_MAX_MESSAGE: string := "Product name must be less than 255 characters"
  const DISCOUNT_MESSAGE: string := "Discount must be between 0 and 100"
  const FINAL_PRICE_MESSAGE: string := "Final price must be a positive number"
  const QUANTITY_MIN_MESSAGE: string := "Quantity is required"
  const QUANTITY_MAX_MESSAGE: string := "Quantity should not exceed 50 characters"
  const DESCRIPTION_MESSAGE: string := "Description should not exceed 1000 characters"
  const STOCK_MESSAGE: string := "Stock must be a positive number"
  const SKU_MIN_MESSAGE: string := "SKU is required"
  const SKU_MAX_MESSAGE: string := "SKU should not exceed 50 characters"
  const CATEGORY_MESSAGE: string := "Category is required"

  function NameChecks(): seq<StringCheck> { [MinLength(1, NAME_MIN_MESSAGE), MaxLength(255, NAME_MAX_MESSAGE)] }
  function DiscountChecks(): seq<NumberCheck> { [AtLeast(0.0, DISCOUNT_MESSAGE), AtMost(100.0, DISCOUNT_MESSAGE)] }
  function FinalPriceChecks(): seq<NumberCheck> { [Positive(FINAL_PRICE_MESSAGE)] }
  function QuantityChecks(): seq<StringCheck> { [MinLength(1, QUANTITY_MIN_MESSAGE), MaxLength(50, QUANTITY_MAX_MESSAGE)] }
  function DescriptionChecks(): seq<StringCheck> { [MaxLength(1000, DESCRIPTION_MESSAGE)] }
  function StockChecks(): seq<NumberCheck> { [AtLeast(0.0, STOCK_MESSAGE)] }
  function SkuChecks(): seq<StringCheck> { [MinLength(1, SKU_MIN_MESSAGE), MaxLength(50, SKU_MAX_MESSAGE)] }
  function CategoryChecks(): seq<StringCheck> { [MinLength(1, CATEGORY_MESSAGE)] }

  /**
   * The fields of `productSchema` in declaration order.  `req` is the
   * presence of the required fields (name, quantity, category): Required in
   * `productSchema`, Optional in its `.partial()`.
   */
  function ProductFields(body: Body, req: Presence): (fields: seq<Parsed>)
    ensures |fields| == 13
    ensures forall i :: 0 <= i < |fields| ==> fields[i].Wf()
  {
    [ StringField(Get(body, "name"), req, NameChecks(), NoEmailTest),
      AnyField(Get(body, "price")),
      NumberField(Get(body, "discount"), Optional, DiscountChecks()),
      NumberField(Get(body, "finalPrice"), Optional, FinalPriceChecks()),
      StringField(Get(body, "quantity"), req, QuantityChecks(), NoEmailTest),
      StringField(Get(body, "description"), Optional, DescriptionChecks(), NoEmailTest),
      NumberField(Get(body, "stock"), Optional, StockChecks()),
      AnyField(Get(body, "images")),
      StringField(Get(body, "sku"), Optional, SkuChecks(), NoEmailTest),
      BooleanField(Get(body, "isActive"), Optional),
      BooleanField(Get(body, "isWeekendDeal"), Optional),
      BooleanField(Get(body, "isFeatured"), Optional),
      StringField(Get(body, "category"), req, CategoryChecks(), NoEmailTest) ]
  }

  /** `productSchema.safeParse(body)`. */
  function ProductParse(body: Body): (r: Parsed)
    ensures r.Wf()
  {
    Object(ProductFields(body, Required))
  }

  /** `productUpdateSchema.safeParse(body)`. */
  function ProductUpdateParse(body: Body): (r: Parsed)
    ensures r.Wf()
  {
    Object(ProductFields(body, Required.Partial()))
  }

  // The values each field accepts, absence aside.
  predicate NameOk(v: Value) { v.Str? && 1 <= |v.s| <= 255 }
  predicate DiscountOk(v: Value) { v.Undefined? || (v.Num? && 0.0 <= v.x <= 100.0) }
  predicate FinalPriceOk(v: Value) { v.Undefined? || (v.Num? && v.x > 0.0) }
  predicate QuantityOk(v: Value) { v.Str? && 1 <= |v.s| <= 50 }
  predicate DescriptionOk(v: Value) { v.Undefined? || (v.Str? && |v.s| <= 1000) }
  predicate StockOk(v: Value) { v.Undefined? || (v.Num? && v.x >= 0.0) }
  predicate SkuOk(v: Value) { v.Undefined? || (v.Str? && 1 <= |v.s| <= 50) }
  predicate FlagOk(v: Value) { v.Undefined? || v.Bool? }
  predicate CategoryOk(v: Value) { v.Str? && |v.s| >= 1 }

  /** The optional fields of both schemas. */
  predicate OptionalFieldsOk(body: Body)
  {
    && DiscountOk(Get(body, "discount"))
    && FinalPriceOk(Get(body, "finalPrice"))
    && DescriptionOk(Get(body, "description"))
    && StockOk(Get(body, "stock"))
    && SkuOk(Get(body, "sku"))
    && FlagOk(Get(body, "isActive"))
    && FlagOk(Get(body, "isWeekendDeal"))
    && FlagOk(Get(body, "isFeatured"))
  }

  lemma StringChecks(s: string)
    ensures (forall i :: 0 <= i < |NameChecks()| ==> StringCheckPasses(s, NameChecks()[i], NoEmailTest)) <==> 1 <= |s| <= 255
    ensures (forall i :: 0 <= i < |QuantityChecks()| ==> StringCheckPasses(s, QuantityChecks()[i], NoEmailTest)) <==> 1 <= |s| <= 50
    ensures (forall i :: 0 <= i < |DescriptionChecks()| ==> StringCheckPasses(s, DescriptionChecks()[i], NoEmailTest)) <==> |s| <= 1000
    ensures (forall i :: 0 <= i < |SkuChecks()| ==> StringCheckPasses(s, SkuChecks()[i], NoEmailTest)) <==> 1 <= |s| <= 50
    ensures (forall i :: 0 <= i < |CategoryChecks()| ==> StringCheckPasses(s, CategoryChecks()[i], NoEmailTest)) <==> |s| >= 1
  {
    assert StringCheckPasses(s, NameChecks()[0], NoEmailTest) <==> |s| >= 1;
    assert StringCheckPasses(s, NameChecks()[1], NoEmailTest) <==> |s| <= 255;
    assert StringCheckPasses(s, QuantityChecks()[0], NoEmailTest) <==> |s| >= 1;
    assert StringCheckPasses(s, QuantityChecks()[1], NoEmailTest) <==> |s| <= 50;
    assert StringCheckPasses(s, DescriptionChecks()[0], NoEmailTest) <==> |s| <= 1000;
    assert StringCheckPasses(s, SkuChecks()[0], NoEmailTest) <==> |s| >= 1;
    assert StringCheckPasses(s, SkuChecks()[1], NoEmailTest) <==> |s| <= 50;
    assert StringCheckPasses(s, CategoryChecks()[0], NoEmailTest) <==> |s| >= 1;
  }

  lemma NumberChecks(x: real)
    ensures (forall i :: 0 <= i < |DiscountChecks()| ==> NumberCheckPasses(x, DiscountChecks()[i])) <==> 0.0 <= x <= 100.0
    ensures (forall i :: 0 <= i < |FinalPriceChecks()| ==> NumberCheckPasses(x, FinalPriceChecks()[i])) <==> x > 0.0
    ensures (forall i :: 0 <= i < |StockChecks()| ==> NumberCheckPasses(x, StockChecks()[i])) <==> x >= 0.0
  {
    assert NumberCheckPasses(x, DiscountChecks()[0]) <==> x >= 0.0;
    assert NumberCheckPasses(x, DiscountChecks()[1]) <==> x <= 100.0;
    assert NumberCheckPasses(x, FinalPriceChecks()[0]) <==> x > 0.0;
    assert NumberCheckPasses(x, StockChecks()[0]) <==> x >= 0.0;
  }

  // Field by field: each field succeeds exactly when its value is admitted or acceptable.

  lemma NameField(v: Value, req: Presence)
    ensures StringField(v, req, NameChecks(), NoEmailTest).Success() <==> req.Admits(v) || NameOk(v)
  {
    if v.Str? { StringChecks(v.s); }
  }

  lemma QuantityField(v: Value, req: Presence)
    ensures StringField(v, req, QuantityChecks(), NoEmailTest).Success() <==> req.Admits(v) || QuantityOk(v)
  {
    if v.Str? { StringChecks(v.s); }
  }

  lemma CategoryField(v: Value, req: Presence)
    ensures StringField(v, req, CategoryChecks(), NoEmailTest).Success() <==> req.Admits(v) || CategoryOk(v)
  {
    if v.Str? { StringChecks(v.s); }
  }

  lemma OptionalFields(body: Body)
    ensures NumberField(Get(body, "discount"), Optional, DiscountChecks()).Success() <==> DiscountOk(Get(body, "discount"))
    ensures NumberField(Get(body, "finalPrice"), Optional, FinalPriceChecks()).Success() <==> FinalPriceOk(Get(body, "finalPrice"))
    ensures StringField(Get(body, "description"), Optional, DescriptionChecks(), NoEmailTest).Success() <==> DescriptionOk(Get(body, "description"))
    ensures NumberField(Get(body, "stock"), Optional, StockChecks()).Success() <==> StockOk(Get(body, "stock"))
    ensures StringField(Get(body, "sku"), Optional, SkuChecks(), NoEmailTest).Success() <==> SkuOk(Get(body, "sku"))
  {
    if Get(body, "description").Str? { StringChecks(Get(body, "description").s); }
    if Get(body, "sku").Str? { StringChecks(Get(body, "sku").s); }
    if Get(body, "discount").Num? { NumberChecks(Get(body, "discount").x); }
    if Get(body, "finalPrice").Num? { NumberChecks(Get(body, "finalPrice").x); }
    if Get(body, "stock").Num? { NumberChecks(Get(body, "stock").x); }
  }

  /** Both schemas: the object succeeds exactly when the three main fields do and the optional ones are acceptable. */
  lemma FieldsSucceed(body: Body, req: Presence)
    ensures Object(ProductFields(body, req)).Success() <==>
      (req.Admits(Get(body, "name")) || NameOk(Get(body, "name"))) &&
      (req.Admits(Get(body, "quantity")) || QuantityOk(Get(body, "quantity"))) &&
      (req.Admits(Get(body, "category")) || CategoryOk(Get(body, "category"))) &&
      OptionalFieldsOk(body)
  {
    var f := ProductFields(body, req);
    MainFields(body, req);
    OtherFields(body, req);
    Combine(f, req.Admits(Get(body, "name")) || NameOk(Get(body, "name")),
      req.Admits(Get(body, "quantity")) || QuantityOk(Get(body, "quantity")),
      req.Admits(Get(body, "category")) || CategoryOk(Get(body, "category")),
      OptionalFieldsOk(body));
  }

  /** Name, quantity and category, the fields whose presence `req` decides. */
  lemma MainFields(body: Body, req: Presence)
    ensures var f := ProductFields(body, req);
      && f[0].Success() == (req.Admits(Get(body, "name")) || NameOk(Get(body, "name")))
      && f[4].Success() == (req.Admits(Get(body, "quantity")) || QuantityOk(Get(body, "quantity")))
      && f[12].Success() == (req.Admits(Get(body, "category")) || CategoryOk(Get(body, "category")))
  {
    NameField(Get(body, "name"), req);
    QuantityField(Get(body, "quantity"), req);
    CategoryField(Get(body, "category"), req);
  }

  /** The ten fields that are optional in both schemas. */
  lemma OtherFields(body: Body, req: Presence)
    ensures var f := ProductFields(body, req);
      OptionalFieldsOk(body) == (f[1].Success() && f[2].Success() && f[3].Success() && f[5].Success() && f[6].Success() &&
                                 f[7].Success() && f[8].Success() && f[9].Success() && f[10].Success() && f[11].Success())
  {
    OptionalFields(body);
  }

  /** The object succeeds exactly when the three main fields and the ten others do. */
  lemma Combine(f: seq<Parsed>, name: bool, quantity: bool, category: bool, others: bool)
    requires |f| == 13 && forall i :: 0 <= i < |f| ==> f[i].Wf()
    requires f[0].Success() == name && f[4].Success() == quantity && f[12].Success() == category
    requires others == (f[1].Success() && f[2].Success() && f[3].Success() && f[5].Success() && f[6].Success() &&
                        f[7].Success() && f[8].Success() && f[9].Success() && f[10].Success() && f[11].Success())
    ensures Object(f).Success() == (name && quantity && category && others)
  {
    AllFields(f);
  }

  lemma AllFields(f: seq<Parsed>)
    requires |f| == 13 && forall i :: 0 <= i < |f| ==> f[i].Wf()
    ensures Object(f).Success() <==>
      f[0].Success() && f[1].Success() && f[2].Success() && f[3].Success() && f[4].Success() &&
      f[5].Success() && f[6].Success() && f[7].Success() && f[8].Success() && f[9].Success() &&
      f[10].Success() && f[11].Success() && f[12].Success()
  {
  }

  /** A create body is accepted exactly when every field holds an acceptable value; price and images are free. */
  lemma ProductAccepts(body: Body)
    ensures ProductParse(body).Success() <==>
      NameOk(Get(body, "name")) && QuantityOk(Get(body, "quantity")) && CategoryOk(Get(body, "category")) &&
      OptionalFieldsOk(body)
  {
    FieldsSucceed(body, Required);
  }

  /** An update body is accepted exactly when every field it holds is acceptable. */
  lemma ProductUpdateAccepts(body: Body)
    ensures ProductUpdateParse(body).Success() <==>
      (Get(body, "name").Undefined? || NameOk(Get(body, "name"))) &&
      (Get(body, "quantity").Undefined? || QuantityOk(Get(body, "quantity"))) &&
      (Get(body, "category").Undefined? || CategoryOk(Get(body, "category"))) &&
      OptionalFieldsOk(body)
  {
    FieldsSucceed(body, Optional);
  }

  /** The update schema accepts the empty body; the create schema does not. */
  lemma EmptyProductBody()
    ensures ProductUpdateParse(map[]).Success()
    ensures !ProductParse(map[]).Success()
  {
    ProductAccepts(map[]);
    ProductUpdateAccepts(map[]);
  }

  /** Whatever the price is, acceptance does not change. */
  lemma PriceUnconstrained(body: Body, price: Value)
    ensures ProductParse(body["price" := price]).Success() == ProductParse(body).Success()
    ensures ProductUpdateParse(body["price" := price]).Success() == ProductUpdateParse(body).Success()
  {
    var b := body["price" := price];
    ProductAccepts(body);
    ProductAccepts(b);
    ProductUpdateAccepts(body);
    ProductUpdateAccepts(b);
    assert forall k :: k != "price" ==> Get(b, k) == Get(body, k);
  }

  /** Every body the create schema accepts, the update schema accepts too. */
  lemma CreateBodyUpdatesProduct(body: Body)
    requires ProductParse(body).Success()
    ensures ProductUpdateParse(body).Success()
  {
    ProductAccepts(body);
    ProductUpdateAccepts(body);
  }
}
