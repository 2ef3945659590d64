/** products/models.py: the Product record, its field constraints and
    defaults, its listing order and the `needs_reorder` property. */
module ProductsModels {
  import Money

  type ProductId = int
  type CategoryId = int

  /** A product row; `unitPrice` is in cents and the timestamps are opaque clock values. */
  datatype Product = Product(
    id: ProductId,
    category: CategoryId,
    name: string,
    description: string,
    sku: string,
    unitPrice: int,
    stockLevel: int,
    reorderPoint: int,
    isActive: bool,
    createdAt: int,
    updatedAt: int)

  const DefaultStockLevel: int := 0
  const DefaultReorderPoint: int := 10
  /** MinValueValidator(0.01) on unit_price, in cents. */
  const MinUnitPrice: int := 1

  /** The declared field constraints: name and SKU lengths, a price of at least
      0.01 that fits the decimal field, and non-negative stock and reorder point. */
  predicate FieldsValid(p: Product) {
    && |p.name| <= 200
    && |p.sku| <= 50
    && MinUnitPrice <= p.unitPrice
    && Money.FitsDecimal(p.unitPrice)
    && p.stockLevel >= 0
    && p.reorderPoint >= 0
  }

  /** `needs_reorder`: the stock level is at or below the reorder point. */
  predicate NeedsReorder(p: Product) {
    p.stockLevel <= p.reorderPoint
  }

  /** A product as created when stock_level, reorder_point and is_active are
      left to their defaults. */
  function NewProduct(id: ProductId, category: CategoryId, name: string, description: string,
                      sku: string, unitPrice: int, now: int): Product
  {
    Product(id, category, name, description, sku, unitPrice,
            DefaultStockLevel, DefaultReorderPoint, true, now, now)
  }

  /** The defaults give a valid product that already needs reordering. */
  lemma NewProductNeedsReorder(id: ProductId, category: CategoryId, name: string, description: string,
                               sku: string, unitPrice: int, now: int)
    requires |name| <= 200 && |sku| <= 50 && MinUnitPrice <= unitPrice && Money.FitsDecimal(unitPrice)
    ensures FieldsValid(NewProduct(id, category, name, description, sku, unitPrice, now))
    ensures NeedsReorder(NewProduct(id, category, name, description, sku, unitPrice, now))
    ensures NewProduct(id, category, name, description, sku, unitPrice, now).stockLevel == 0
    ensures NewProduct(id, category, name, description, sku, unitPrice, now).reorderPoint == 10
  {
  }

  /** The threshold is inclusive, and lowering the stock never clears the flag. */
  lemma NeedsReorderThreshold(p: Product, lower: int)
    requires lower <= p.stockLevel
    ensures NeedsReorder(p.(stockLevel := p.reorderPoint))
    ensures !NeedsReorder(p.(stockLevel := p.reorderPoint + 1))
    ensures NeedsReorder(p) ==> NeedsReorder(p.(stockLevel := lower))
  {
  }

  /** Lexicographic order of names by character code (Meta.ordering = ['name']). */
  predicate NameLe(a: string, b: string)
    decreases |a|
  {
    a == [] || (b != [] && (a[0] < b[0] || (a[0] == b[0] && NameLe(a[1..], b[1..]))))
  }

  predicate SortedByName(ps: seq<Product>) {
    forall i, j :: 0 <= i < j < |ps| ==> NameLe(ps[i].name, ps[j].name)
  }

  /** NameLe is a total preorder on names: reflexive, total and transitive. */
  lemma {:induction false} NameLeTotalOrder(a: string, b: string, c: string)
    ensures NameLe(a, a)
    ensures NameLe(a, b) || NameLe(b, a)
    ensures NameLe(a, b) && NameLe(b, c) ==> NameLe(a, c)
    decreases |a|
  {
    if a != [] && b != [] && c != [] {
      NameLeTotalOrder(a[1..], b[1..], c[1..]);
    } else if a != [] && b != [] {
      NameLeTotalOrder(a[1..], b[1..], b[1..]);
    } else if a != [] {
      NameLeTotalOrder(a[1..], a[1..], a[1..]);
    }
  }
}
