/** pos/models.py: the Sale and SaleDetail rows, and the inventory Item a sale
    line points at. The item's `quantity` and `unit_price` are the columns
    created by inventory/migrations/0001_initial.py. Amounts are in cents. */
module PosModels {
  import opened Wrappers
  import opened Money
  import opened AccountsModels

  type ItemId = int
  /** A sale's primary key: its position in the sale table. */
  type SaleId = nat

  /** An inventory item as the sale workflow sees it. */
  datatype Item = Item(name: string, quantity: int, unitPrice: int)

  /** What the item table can hold: a PositiveIntegerField quantity and a
      DecimalField(10, 2) price. */
  predicate ItemStorable(i: Item) {
    i.quantity >= 0 && FitsDecimal(i.unitPrice)
  }

  /** A sale: the `auto_now_add` date (a clock value), a total that may be null,
      and the cashier (null once that user is deleted, SET_NULL). */
  datatype Sale = Sale(date: int, totalAmount: Option<int>, cashier: Option<UserId>)

  /** One line of a sale. The sale and item references are required; the
      quantity is a PositiveIntegerField, so 0 is allowed. */
  datatype SaleDetail = SaleDetail(sale: SaleId, item: ItemId, quantity: nat, unitPrice: int, subtotal: int) {
    /** The row as `SaleDetail.save` writes it: the subtotal is recomputed from
        the quantity and the unit price, whatever it held before. */
    function Saved(): SaleDetail {
      this.(subtotal := quantity * unitPrice)
    }
  }

  /** Whether a detail row fits its decimal columns. */
  predicate DetailStorable(d: SaleDetail) {
    FitsDecimal(d.unitPrice) && FitsDecimal(d.subtotal)
  }

  /** A row whose price and subtotal fit their columns can still overflow the
      subtotal column once `save` multiplies: nothing bounds the product. */
  lemma SaveCanOverflowSubtotal()
    ensures var d := SaleDetail(0, 7, 2, Limit - 1, 0);
      DetailStorable(d) && !DetailStorable(d.Saved())
  {
  }

  /** A saved row fits its columns exactly when its price does and the product
      of quantity and price does. */
  lemma SavedStorable(d: SaleDetail)
    ensures DetailStorable(d.Saved()) <==> FitsDecimal(d.unitPrice) && FitsDecimal(d.quantity * d.unitPrice)
  {
  }

  /** After a save the subtotal is quantity times unit price, and no other field
      of the row changed. */
  lemma SavedRow(d: SaleDetail)
    ensures d.Saved().subtotal == d.quantity * d.unitPrice
    ensures d.Saved().sale == d.sale && d.Saved().item == d.item
    ensures d.Saved().quantity == d.quantity && d.Saved().unitPrice == d.unitPrice
  {
  }

  /** Saving twice stores the same row as saving once. */
  lemma SaveIdempotent(d: SaleDetail)
    ensures d.Saved().Saved() == d.Saved()
  {
  }

  /** The subtotal held before the save has no effect on what is stored. */
  lemma SaveIgnoresPriorSubtotal(d: SaleDetail, prior: int)
    ensures d.(subtotal := prior).Saved() == d.Saved()
  {
  }
}
