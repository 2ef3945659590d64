/** products/views.py: the filtering of the product list by category and by
    reorder status, and the stock-only PATCH. */
module ProductsViews {
  import opened Wrappers
  import opened ProductsModels
  import opened ProductsSerializers
  import PyText

  /** The products of `ps` that satisfy `f`, in their original order: a list
      comprehension, or a queryset filter over an ordered queryset. */
  function Keep(ps: seq<Product>, f: Product -> bool): (r: seq<Product>)
    ensures |r| <= |ps|
    ensures forall p :: p in r <==> p in ps && f(p)
  {
    if ps == [] then [] else (if f(ps[0]) then [ps[0]] else []) + Keep(ps[1..], f)
  }

  /** `a` is `b` with some elements left out and the rest in the same order. */
  predicate IsSubsequence(a: seq<Product>, b: seq<Product>)
    decreases |b|
  {
    a == [] || (b != [] && ((a[0] == b[0] && IsSubsequence(a[1..], b[1..])) || IsSubsequence(a, b[1..])))
  }

  /** Filtering keeps the relative order of the products it keeps. */
  lemma {:induction false} KeepPreservesOrder(ps: seq<Product>, f: Product -> bool)
    ensures IsSubsequence(Keep(ps, f), ps)
  {
    if ps != [] {
      KeepPreservesOrder(ps[1..], f);
      var rest := Keep(ps[1..], f);
      if f(ps[0]) {
        assert Keep(ps, f) == [ps[0]] + rest;
        assert ([ps[0]] + rest)[1..] == rest;
      } else {
        assert Keep(ps, f) == rest;
      }
    }
  }

  /** The tail of a list sorted by name is sorted by name. */
  lemma SortedTail(ps: seq<Product>)
    requires ps != [] && SortedByName(ps)
    ensures SortedByName(ps[1..])
  {
    var tail := ps[1..];
    forall i, j | 0 <= i < j < |tail| ensures NameLe(tail[i].name, tail[j].name) {
      assert tail[i] == ps[i + 1] && tail[j] == ps[j + 1];
    }
  }

  /** The head of a list sorted by name comes no later than anything in its tail. */
  lemma HeadFirst(ps: seq<Product>, p: Product)
    requires ps != [] && SortedByName(ps) && p in ps[1..]
    ensures NameLe(ps[0].name, p.name)
  {
    var k :| 0 <= k < |ps[1..]| && ps[1..][k] == p;
    assert ps[k + 1] == p;
  }

  /** A product placed before a sorted list it comes no later than keeps it sorted. */
  lemma ConsSorted(p: Product, rest: seq<Product>)
    requires SortedByName(rest)
    requires forall q :: q in rest ==> NameLe(p.name, q.name)
    ensures SortedByName([p] + rest)
  {
    var r := [p] + rest;
    forall i, j | 0 <= i < j < |r| ensures NameLe(r[i].name, r[j].name) {
      assert r[j] == rest[j - 1];
      if i > 0 {
        assert r[i] == rest[i - 1];
      }
    }
  }

  /** A list sorted by name stays sorted by name after filtering. */
  lemma {:induction false} KeepPreservesNameOrder(ps: seq<Product>, f: Product -> bool)
    requires SortedByName(ps)
    ensures SortedByName(Keep(ps, f))
  {
    if ps != [] {
      SortedTail(ps);
      KeepPreservesNameOrder(ps[1..], f);
      var rest := Keep(ps[1..], f);
      if f(ps[0]) {
        forall q | q in rest ensures NameLe(ps[0].name, q.name) {
          HeadFirst(ps, q);
        }
        ConsSorted(ps[0], rest);
        assert Keep(ps, f) == [ps[0]] + rest;
      } else {
        assert Keep(ps, f) == rest;
      }
    }
  }

  /** Filtering by "needs reorder" and by its negation splits the list in two. */
  lemma {:induction false} ReorderPartition(ps: seq<Product>)
    ensures multiset(Keep(ps, NeedsReorder)) + multiset(Keep(ps, Stocked)) == multiset(ps)
  {
    if ps != [] {
      var x, tail := ps[0], ps[1..];
      ReorderPartition(tail);
      assert ps == [x] + tail;
      var low, high := Keep(tail, NeedsReorder), Keep(tail, Stocked);
      if NeedsReorder(x) {
        assert Keep(ps, NeedsReorder) == [x] + low;
        assert Keep(ps, Stocked) == high;
        calc {
          multiset([x] + low) + multiset(high);
          multiset{x} + (multiset(low) + multiset(high));
          multiset{x} + multiset(tail);
          multiset(ps);
        }
      } else {
        assert Keep(ps, NeedsReorder) == low;
        assert Keep(ps, Stocked) == [x] + high;
        calc {
          multiset(low) + multiset([x] + high);
          multiset{x} + (multiset(low) + multiset(high));
          multiset{x} + multiset(tail);
          multiset(ps);
        }
      }
    }
  }

  datatype ListError = InvalidCategoryId(value: string)

  /** The test of `filter(category_id=...)`. */
  function CategoryIs(id: CategoryId): Product -> bool {
    (p: Product) => p.category == id
  }

  /** The test of `not p.needs_reorder`. */
  predicate Stocked(p: Product) {
    !NeedsReorder(p)
  }

  /** The `category` query parameter: when present and non-empty it is compared
      with the integer category id, and Django's `int()` conversion of a value
      that is not an integer raises ValueError. */
  function CategoryFilter(ps: seq<Product>, category: Option<string>): Result<seq<Product>, ListError> {
    if category.None? || category.value == "" then Ok(ps)
    else
      match PyText.ParseInt(category.value)
      case None => Err(InvalidCategoryId(category.value))
      case Some(id) => Ok(Keep(ps, CategoryIs(id)))
  }

  /** The `needs_reorder` query parameter, compared case-insensitively with
      "true" and "false"; any other value, or none, filters nothing. */
  function ReorderFilter(ps: seq<Product>, needsReorder: Option<string>): seq<Product> {
    if needsReorder.None? || needsReorder.value == "" then ps
    else if PyText.Lower(needsReorder.value) == "true" then Keep(ps, NeedsReorder)
    else if PyText.Lower(needsReorder.value) == "false" then Keep(ps, Stocked)
    else ps
  }

  /** `ProductListCreateView.get`: the category filter, then the reorder filter. */
  function ListProducts(ps: seq<Product>, category: Option<string>, needsReorder: Option<string>): Result<seq<Product>, ListError> {
    match CategoryFilter(ps, category)
    case Err(e) => Err(e)
    case Ok(inCategory) => Ok(ReorderFilter(inCategory, needsReorder))
  }

  /** Whether a product passes the category parameter. */
  predicate InCategory(p: Product, category: Option<string>) {
    category.None? || category.value == "" || PyText.ParseInt(category.value) == Some(p.category)
  }

  /** Whether a product passes the reorder parameter. */
  predicate ReorderMatches(p: Product, needsReorder: Option<string>) {
    if needsReorder.None? || needsReorder.value == "" then true
    else if PyText.Lower(needsReorder.value) == "true" then NeedsReorder(p)
    else if PyText.Lower(needsReorder.value) == "false" then !NeedsReorder(p)
    else true
  }

  /** The list fails exactly for a non-empty category that is not an integer;
      otherwise it holds exactly the products that pass both parameters, in
      their original order. */
  lemma ListProductsContents(ps: seq<Product>, category: Option<string>, needsReorder: Option<string>)
    ensures ListProducts(ps, category, needsReorder).Err? <==>
      category.Some? && category.value != "" && PyText.ParseInt(category.value).None?
    ensures ListProducts(ps, category, needsReorder).Ok? ==>
      var r := ListProducts(ps, category, needsReorder).value;
      IsSubsequence(r, ps)
      && forall p :: p in r <==> p in ps && InCategory(p, category) && ReorderMatches(p, needsReorder)
  {
    var c := CategoryFilter(ps, category);
    if c.Ok? {
      var inCategory := c.value;
      assert IsSubsequence(inCategory, ps) by {
        if category.None? || category.value == "" {
          SubsequenceReflexive(ps);
        } else {
          KeepPreservesOrder(ps, CategoryIs(PyText.ParseInt(category.value).value));
        }
      }
      var r := ReorderFilter(inCategory, needsReorder);
      assert IsSubsequence(r, inCategory) by {
        if needsReorder.None? || needsReorder.value == "" {
          SubsequenceReflexive(inCategory);
        } else if PyText.Lower(needsReorder.value) == "true" {
          KeepPreservesOrder(inCategory, NeedsReorder);
        } else if PyText.Lower(needsReorder.value) == "false" {
          KeepPreservesOrder(inCategory, Stocked);
        } else {
          SubsequenceReflexive(inCategory);
        }
      }
      SubsequenceTransitive(r, inCategory, ps);
    }
  }

  /** The result is still sorted by name when the input was. */
  lemma ListProductsSorted(ps: seq<Product>, category: Option<string>, needsReorder: Option<string>)
    requires SortedByName(ps)
    requires ListProducts(ps, category, needsReorder).Ok?
    ensures SortedByName(ListProducts(ps, category, needsReorder).value)
  {
    var inCategory := CategoryFilter(ps, category).value;
    if !(category.None? || category.value == "") {
      KeepPreservesNameOrder(ps, CategoryIs(PyText.ParseInt(category.value).value));
    }
    if !(needsReorder.None? || needsReorder.value == "") {
      if PyText.Lower(needsReorder.value) == "true" {
        KeepPreservesNameOrder(inCategory, NeedsReorder);
      } else if PyText.Lower(needsReorder.value) == "false" {
        KeepPreservesNameOrder(inCategory, Stocked);
      }
    }
  }

  /** "true" and "false" split the category-filtered list between them, in any letter case. */
  lemma ReorderTrueFalsePartition(ps: seq<Product>, category: Option<string>, t: string, f: string)
    requires PyText.Lower(t) == "true" && PyText.Lower(f) == "false"
    requires ListProducts(ps, category, None).Ok?
    ensures var all := ListProducts(ps, category, None).value;
      && ListProducts(ps, category, Some(t)) == Ok(Keep(all, NeedsReorder))
      && ListProducts(ps, category, Some(f)) == Ok(Keep(all, Stocked))
      && multiset(ListProducts(ps, category, Some(t)).value) + multiset(ListProducts(ps, category, Some(f)).value) == multiset(all)
  {
    var all := ListProducts(ps, category, None).value;
    ReorderPartition(all);
  }

  /** Any other value of `needs_reorder` applies no reorder filter. */
  lemma OtherReorderValuesIgnored(ps: seq<Product>, category: Option<string>, v: string)
    requires PyText.Lower(v) != "true" && PyText.Lower(v) != "false"
    ensures ListProducts(ps, category, Some(v)) == ListProducts(ps, category, None)
  {
  }

  lemma {:induction false} SubsequenceReflexive(a: seq<Product>)
    ensures IsSubsequence(a, a)
  {
    if a != [] {
      SubsequenceReflexive(a[1..]);
    }
  }

  lemma {:induction false} SubsequenceTransitive(a: seq<Product>, b: seq<Product>, c: seq<Product>)
    requires IsSubsequence(a, b) && IsSubsequence(b, c)
    ensures IsSubsequence(a, c)
    decreases |c|
  {
    if a != [] {
      if IsSubsequence(b, c[1..]) {
        SubsequenceTransitive(a, b, c[1..]);
      } else if IsSubsequence(a, b[1..]) {
        SubsequenceTransitive(a, b[1..], c[1..]);
      } else {
        SubsequenceTransitive(a[1..], b[1..], c[1..]);
      }
    }
  }

  /** The product as `ProductStockUpdateView.patch` saves it: the sent stock level,
      if any, and the `auto_now` update time. */
  function StockPatched(p: Product, stockLevel: Option<int>, now: int): Product {
    p.(stockLevel := stockLevel.GetOr(p.stockLevel), updatedAt := now)
  }

  /** Only the stock level and the update time change, and a valid product stays
      valid when the new level passed validation. */
  lemma StockPatchTouchesOnlyStock(p: Product, stockLevel: Option<int>, now: int)
    requires FieldsValid(p)
    requires stockLevel.Some? ==> StockLevelField(stockLevel.value, p).Ok?
    ensures StockPatched(p, stockLevel, now).(stockLevel := p.stockLevel, updatedAt := p.updatedAt) == p
    ensures FieldsValid(StockPatched(p, stockLevel, now))
  {
  }

  datatype PatchOutcome = NotFound | Invalid(message: string) | Updated(product: Product)

  /** The product table the stock PATCH writes to. */
  class ProductTable {
    var products: map<ProductId, Product>

    constructor (initial: map<ProductId, Product>)
      ensures products == initial
    {
      products := initial;
    }

    /** `ProductStockUpdateView.patch`: 404 for an unknown product; the stock-only
        serializer refuses a level outside 0 to 2147483647; otherwise the product is saved with
        the new level (or unchanged fields when none was sent) and returned. */
    method PatchStock(id: ProductId, stockLevel: Option<int>, now: int) returns (outcome: PatchOutcome)
      modifies this
      ensures id !in old(products) ==> outcome == NotFound && products == old(products)
      ensures id in old(products) && stockLevel.Some? && (stockLevel.value < 0 || stockLevel.value > MaxPositiveInteger) ==>
        outcome.Invalid? && products == old(products)
      ensures id in old(products) && (stockLevel.None? || 0 <= stockLevel.value <= MaxPositiveInteger) ==>
        products == old(products)[id := StockPatched(old(products)[id], stockLevel, now)]
        && outcome == Updated(products[id])
    {
      if id !in products {
        return NotFound;
      }
      var product := products[id];
      if stockLevel.Some? {
        var checked := StockLevelField(stockLevel.value, product);
        if checked.Err? {
          return Invalid(checked.error);
        }
        product := product.(stockLevel := checked.value.value);
      }
      product := product.(updatedAt := now);
      products := products[id := product];
      outcome := Updated(product);
    }
  }
}
