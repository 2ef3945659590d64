/** products/serializers.py: SKU normalisation, the reorder-point check of
    ProductSerializer.validate and the stock-level validator of the
    stock-only serializer. */
module ProductsSerializers {
  import opened Wrappers
  import opened ProductsModels
  import PyText

  /** `ProductSerializer.validate_sku`: upper-case, then refuse fewer than 4 characters. */
  function ValidateSku(value: string): (r: Result<string, string>)
    ensures r.Err? <==> |PyText.Upper(value)| < 4
    ensures r.Err? <==> |value| < 4
    ensures r.Ok? ==> r.value == PyText.Upper(value) && PyText.NoLowerCase(r.value)
  {
    PyText.UpperIdempotent(value);
    var upper := PyText.Upper(value);
    if |upper| < 4 then Err(ShortMessage) else Ok(upper)
  }

  /** Validating an accepted SKU again accepts it unchanged. */
  lemma ValidateSkuIdempotent(value: string)
    requires ValidateSku(value).Ok?
    ensures ValidateSku(ValidateSku(value).value) == ValidateSku(value)
  {
    PyText.UpperIdempotent(value);
  }

  const BlankMessage := "This field may not be blank."
  const UniqueMessage := "product with this sku already exists."
  const MaxLengthMessage := "Ensure this field has no more than 50 characters."
  const NullMessage := "Null characters are not allowed."
  const ShortMessage := "SKU must be at least 4 characters long."

  /** The messages of the SKU field's own validators that fail on `value`, in
      the order DRF runs them: unique, maximum length, no null character. */
  function BuiltinSkuErrors(value: string, inUse: set<string>): (es: seq<string>)
    ensures UniqueMessage in es <==> value in inUse
    ensures MaxLengthMessage in es <==> |value| > 50
    ensures NullMessage in es <==> '\0' in value
    ensures es == [] <==> value !in inUse && |value| <= 50 && '\0' !in value
    ensures BlankMessage !in es && ShortMessage !in es
  {
    (if value in inUse then [UniqueMessage] else [])
    + (if |value| > 50 then [MaxLengthMessage] else [])
    + (if '\0' in value then [NullMessage] else [])
  }

  /** The SKU field as DRF runs it: the CharField strips surrounding whitespace
      and refuses a blank value outright; otherwise all its own validators see
      the stripped value and every failure is reported; only when none fails
      does `validate_sku` upper-case it. */
  function ValidateSkuField(raw: string, inUse: set<string>): (r: Result<string, seq<string>>)
    ensures var value := PyText.Strip(raw);
      r.Err? <==> value in inUse || |value| > 50 || '\0' in value || |value| < 4
    ensures r.Err? ==> r.error != []
    ensures PyText.Strip(raw) == [] ==> r == Err([BlankMessage])
    ensures var value := PyText.Strip(raw);
      value != [] && r.Err? ==>
        && (UniqueMessage in r.error <==> value in inUse)
        && (MaxLengthMessage in r.error <==> |value| > 50)
        && (NullMessage in r.error <==> '\0' in value)
        && (ShortMessage in r.error <==> value !in inUse && |value| <= 50 && '\0' !in value && |value| < 4)
    ensures r.Ok? ==> r.value == PyText.Upper(PyText.Strip(raw))
  {
    var value := PyText.Strip(raw);
    if value == [] then Err([BlankMessage])
    else
      var builtin := BuiltinSkuErrors(value, inUse);
      if builtin != [] then Err(builtin)
      else
        match ValidateSku(value)
        case Err(e) => Err([e])
        case Ok(sku) => Ok(sku)
  }

  /** The upper-cased form of the example SKU. */
  lemma UpperAbcd()
    ensures PyText.Upper("abcd") == "ABCD"
  {
    var s := "abcd";
    assert s[0] == 'a' && s[1] == 'b' && s[2] == 'c' && s[3] == 'd';
    assert PyText.UpperChar('a') == 'A' && PyText.UpperChar('b') == 'B';
    assert PyText.UpperChar('c') == 'C' && PyText.UpperChar('d') == 'D';
    var u := PyText.Upper(s);
    assert u[0] == 'A' && u[1] == 'B' && u[2] == 'C' && u[3] == 'D';
  }

  /** The upper-cased form of an accepted SKU can already belong to another
      product: the save then breaks the database's unique constraint instead of
      being refused by validation. */
  lemma SkuCaseDuplicateAccepted()
    ensures ValidateSkuField("abcd", {"ABCD"}) == Ok("ABCD")
  {
    PyText.StripUnspaced("abcd");
    UpperAbcd();
    assert "abcd"[0] != "ABCD"[0];
  }

  /** The evident intent: the length and null-character validators as before,
      and uniqueness checked on the normalised SKU. */
  function ValidateSkuFieldNormalised(raw: string, inUse: set<string>): (r: Result<string, seq<string>>)
    ensures var value := PyText.Strip(raw);
      r.Err? <==> |value| > 50 || '\0' in value || PyText.Upper(value) in inUse || |value| < 4
    ensures r.Err? ==> r.error != []
    ensures r.Ok? ==> r.value == PyText.Upper(PyText.Strip(raw)) && r.value !in inUse
  {
    var value := PyText.Strip(raw);
    if value == [] then Err([BlankMessage])
    else
      var builtin := BuiltinSkuErrors(value, {});
      if builtin != [] then Err(builtin)
      else
        match ValidateSku(value)
        case Err(e) => Err([e])
        case Ok(sku) => if sku in inUse then Err([UniqueMessage]) else Ok(sku)
  }

  /** The normalised check refuses the duplicate that the field as written lets through. */
  lemma SkuCaseDuplicateRefused()
    ensures ValidateSkuFieldNormalised("abcd", {"ABCD"}).Err?
  {
    PyText.StripUnspaced("abcd");
    UpperAbcd();
  }

  /** The fields of the incoming data that `validate` looks at; absent in a
      partial update when not sent. */
  datatype ProductInput = ProductInput(reorderPoint: Option<int>, stockLevel: Option<int>)

  /** `ProductSerializer.validate`: refuses a reorder point above the stock level
      when both are present; equality is accepted and nothing is checked when
      either is absent. */
  function ValidateProduct(data: ProductInput): (r: Result<ProductInput, string>)
    ensures r.Err? <==> data.reorderPoint.Some? && data.stockLevel.Some? && data.reorderPoint.value > data.stockLevel.value
    ensures r.Ok? ==> r.value == data
  {
    if data.reorderPoint.Some? && data.stockLevel.Some? && data.reorderPoint.value > data.stockLevel.value then
      Err("Stock level should be above the reorder point.")
    else Ok(data)
  }

  /** A product whose stock level and reorder point passed the check together
      needs reordering only when the two are equal. */
  lemma AcceptedProductReordersOnlyAtEquality(p: Product)
    requires ValidateProduct(ProductInput(Some(p.reorderPoint), Some(p.stockLevel))).Ok?
    ensures NeedsReorder(p) <==> p.stockLevel == p.reorderPoint
  {
  }

  /** A create that leaves both fields to their defaults is not checked, and the
      defaults (stock 0, reorder point 10) are exactly what the check refuses when sent. */
  lemma DefaultsBypassReorderCheck()
    ensures ValidateProduct(ProductInput(None, None)).Ok?
    ensures ValidateProduct(ProductInput(Some(DefaultReorderPoint), Some(DefaultStockLevel))).Err?
  {
  }

  /** The largest value Django's PositiveIntegerField admits on a backend with
      32-bit integer columns; DRF turns it into the field's `max_value`. */
  const MaxPositiveInteger: int := 2147483647

  /** The outcome of `validate_stock_level`: the value, and whether the warning
      about the reorder point is printed. */
  datatype StockLevelCheck = StockLevelCheck(value: int, warning: bool)

  /** `ProductStockUpdateSerializer.validate_stock_level`: negative values are
      refused; otherwise the value passes unchanged, with a warning (output only)
      when it is at or below the product's reorder point. */
  function ValidateStockLevel(value: int, instance: Product): (r: Result<StockLevelCheck, string>)
    ensures r.Err? <==> value < 0
    ensures r.Ok? ==> r.value.value == value
    ensures r.Ok? ==> (r.value.warning <==> NeedsReorder(instance.(stockLevel := value)))
  {
    if value < 0 then Err("Stock level cannot be negative.")
    else Ok(StockLevelCheck(value, value <= instance.reorderPoint))
  }

  /** The `stock_level` field of the stock-only serializer: the bounds the
      PositiveIntegerField gives it are checked first, and only a value within
      them reaches `validate_stock_level`. */
  function StockLevelField(value: int, instance: Product): (r: Result<StockLevelCheck, string>)
    ensures r.Err? <==> value < 0 || value > MaxPositiveInteger
    ensures value < 0 ==> r == Err("Ensure this value is greater than or equal to 0.")
    ensures value > MaxPositiveInteger ==> r == Err("Ensure this value is less than or equal to 2147483647.")
    ensures r.Ok? ==> r.value.value == value && (r.value.warning <==> NeedsReorder(instance.(stockLevel := value)))
  {
    if value < 0 then Err("Ensure this value is greater than or equal to 0.")
    else if value > MaxPositiveInteger then Err("Ensure this value is less than or equal to 2147483647.")
    else ValidateStockLevel(value, instance)
  }
}
