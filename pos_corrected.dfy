/** The sale commit as evidently intended: each line decrements the item's
    current stock, as left by the earlier lines of the same sale, rather than
    the instance fetched for that line before the loop started. */
module PosCorrected {
  import opened Wrappers
  import opened AccountsModels
  import opened PosModels
  import opened PosSerializers

  /** The total quantity the lines ask of item `k`. */
  function Demand(lines: seq<Line>, k: ItemId): (d: int)
    ensures d >= 0
    ensures (forall j :: 0 <= j < |lines| ==> lines[j].item != k) ==> d == 0
  {
    if lines == [] then 0
    else (if lines[0].item == k then lines[0].quantity else 0) + Demand(lines[1..], k)
  }

  /** Whether every line names an item of the table. */
  predicate ItemsKnown(items: map<ItemId, Item>, lines: seq<Line>, i: nat) {
    forall j :: i <= j < |lines| ==> lines[j].item in items
  }

  /** The loop from line `i` on, reading the item's stock from the table. */
  function CommitCurrent(db: Db, sale: SaleId, lines: seq<Line>, i: nat, total: int): (p: Progress)
    requires i <= |lines| && ItemsKnown(db.items, lines, i)
    ensures p.db.sales == db.sales
    ensures p.db.items.Keys == db.items.Keys
    ensures p.failedAt.Some? ==> i <= p.failedAt.value < |lines|
    decreases |lines| - i
  {
    if i == |lines| then Progress(db, total, None)
    else
      var line := lines[i];
      var saved := db.(details := db.details + [Row(sale, line).Saved()]);
      var current := db.items[line.item];
      var item := current.(quantity := current.quantity - line.quantity);
      if item.quantity < 0 then Progress(saved, total + line.subtotal, Some(i))
      else CommitCurrent(saved.(items := saved.items[line.item := item]), sale, lines, i + 1, total + line.subtotal)
  }

  /** `create` with the stock read afresh for every line. */
  function CreateFromCurrentStock(db: Db, lines: seq<Line>, cashier: UserId, now: int): (e: Effect<CreateOutcome>)
    requires ItemsKnown(db.items, lines, 0)
    ensures |e.db.sales| == |db.sales| + 1 && e.db.sales[..|db.sales|] == db.sales
    ensures var row := e.db.sales[|db.sales|];
      row.date == now && row.cashier == Some(cashier) && (e.result.Created? <==> row.totalAmount.Some?)
    ensures e.result.Created? ==> e.result.sale == |db.sales|
    ensures e.db.items.Keys == db.items.Keys
  {
    var sale := |db.sales|;
    var started := db.(sales := db.sales + [Sale(now, None, Some(cashier))]);
    var p := CommitCurrent(started, sale, lines, 0, 0);
    match p.failedAt
    case Some(i) =>
      Effect(p.db, InsufficientStock("Insufficient stock for item " + db.items[lines[i].item].name))
    case None =>
      Effect(p.db.(sales := p.db.sales[sale := Sale(now, Some(p.total), Some(cashier))]), Created(sale))
  }

  /** A completed commit leaves every item with its stock less the whole demand
      of the remaining lines on it, and never with a negative stock. */
  lemma {:induction false} CommitCurrentAccounting(db: Db, sale: SaleId, lines: seq<Line>, i: nat, total: int, k: ItemId)
    requires i <= |lines| && ItemsKnown(db.items, lines, i)
    requires k in db.items && db.items[k].quantity >= 0
    requires CommitCurrent(db, sale, lines, i, total).failedAt.None?
    ensures var items := CommitCurrent(db, sale, lines, i, total).db.items;
      items[k].quantity == db.items[k].quantity - Demand(lines[i..], k) && items[k].quantity >= 0
    decreases |lines| - i
  {
    var rest := lines[i..];
    if i == |lines| {
      assert rest == [];
    } else {
      var line := lines[i];
      assert rest[0] == line && rest[1..] == lines[i + 1..];
      var current := db.items[line.item];
      var next := db.(details := db.details + [Row(sale, line).Saved()],
                      items := db.items[line.item := current.(quantity := current.quantity - line.quantity)]);
      CommitCurrentAccounting(next, sale, lines, i + 1, total + line.subtotal, k);
    }
  }

  /** On success no item is sold beyond its stock: each item's stock falls by
      exactly the sale's total demand on it, which is at most what was there. */
  lemma NoOversell(db: Db, lines: seq<Line>, cashier: UserId, now: int, k: ItemId)
    requires ItemsKnown(db.items, lines, 0)
    requires k in db.items && db.items[k].quantity >= 0
    requires CreateFromCurrentStock(db, lines, cashier, now).result.Created?
    ensures var items := CreateFromCurrentStock(db, lines, cashier, now).db.items;
      && items[k].quantity == db.items[k].quantity - Demand(lines, k)
      && Demand(lines, k) <= db.items[k].quantity
  {
    var started := db.(sales := db.sales + [Sale(now, None, Some(cashier))]);
    CommitCurrentAccounting(started, |db.sales|, lines, 0, 0, k);
    assert lines[0..] == lines;
  }

  /** The tables after line `line` is committed against the current stock. */
  function Committed(db: Db, sale: SaleId, line: Line): Db
    requires line.item in db.items
  {
    var current := db.items[line.item];
    db.(details := db.details + [Row(sale, line).Saved()],
        items := db.items[line.item := current.(quantity := current.quantity - line.quantity)])
  }

  /** A line whose item holds enough commits and hands on to the next line. */
  lemma CommitCurrentStep(db: Db, sale: SaleId, lines: seq<Line>, i: nat, total: int)
    requires i < |lines| && ItemsKnown(db.items, lines, i)
    requires lines[i].quantity <= db.items[lines[i].item].quantity
    ensures ItemsKnown(Committed(db, sale, lines[i]).items, lines, i + 1)
    ensures CommitCurrent(db, sale, lines, i, total)
      == CommitCurrent(Committed(db, sale, lines[i]), sale, lines, i + 1, total + lines[i].subtotal)
  {
  }

  /** Committing a line covered by the stock leaves the rest of the lines covered. */
  lemma CoveredAfterCommit(db: Db, sale: SaleId, lines: seq<Line>, i: nat)
    requires i < |lines| && ItemsKnown(db.items, lines, i)
    requires forall k :: k in db.items ==> Demand(lines[i..], k) <= db.items[k].quantity
    ensures lines[i].quantity <= db.items[lines[i].item].quantity
    ensures var next := Committed(db, sale, lines[i]);
      forall k :: k in next.items ==> Demand(lines[i + 1..], k) <= next.items[k].quantity
  {
    var line := lines[i];
    var rest := lines[i..];
    assert rest[0] == line && rest[1..] == lines[i + 1..];
    var next := Committed(db, sale, line);
    forall k | k in next.items
      ensures Demand(lines[i + 1..], k) <= next.items[k].quantity
    {
      assert Demand(rest, k) == (if line.item == k then line.quantity else 0) + Demand(lines[i + 1..], k);
    }
  }

  /** The loop from line `i` completes whenever every item holds at least the
      remaining lines' whole demand on it. */
  lemma {:induction false} CommitCurrentCovered(db: Db, sale: SaleId, lines: seq<Line>, i: nat, total: int)
    requires i <= |lines| && ItemsKnown(db.items, lines, i)
    requires forall k :: k in db.items ==> Demand(lines[i..], k) <= db.items[k].quantity
    ensures CommitCurrent(db, sale, lines, i, total).failedAt.None?
    decreases |lines| - i
  {
    if i < |lines| {
      CoveredAfterCommit(db, sale, lines, i);
      CommitCurrentStep(db, sale, lines, i, total);
      CommitCurrentCovered(Committed(db, sale, lines[i]), sale, lines, i + 1, total + lines[i].subtotal);
    }
  }

  /** With the stock read afresh for every line, a sale is created exactly when
      every item holds at least the sale's whole demand on it. */
  lemma CreatedExactlyWhenStockCovers(db: Db, lines: seq<Line>, cashier: UserId, now: int)
    requires ItemsKnown(db.items, lines, 0)
    requires forall k :: k in db.items ==> db.items[k].quantity >= 0
    ensures CreateFromCurrentStock(db, lines, cashier, now).result.Created?
      <==> forall k :: k in db.items ==> Demand(lines, k) <= db.items[k].quantity
  {
    var started := db.(sales := db.sales + [Sale(now, None, Some(cashier))]);
    assert lines[0..] == lines;
    if forall k :: k in db.items ==> Demand(lines, k) <= db.items[k].quantity {
      CommitCurrentCovered(started, |db.sales|, lines, 0, 0);
    }
    if CreateFromCurrentStock(db, lines, cashier, now).result.Created? {
      forall k | k in db.items
        ensures Demand(lines, k) <= db.items[k].quantity
      {
        NoOversell(db, lines, cashier, now, k);
      }
    }
  }

  /** The two lines of 6 for an item with 10 in stock are refused at the second line. */
  lemma RepeatedItemRefused()
    ensures var items := map[7 := Item("Gauze", 10, 200)];
      var line := Line(7, Item("Gauze", 10, 200), 6, 200, 1200);
      CreateFromCurrentStock(Db(items, [], []), [line, line], 3, 100).result == InsufficientStock("Insufficient stock for item Gauze")
  {
    var items := map[7 := Item("Gauze", 10, 200)];
    var line := Line(7, Item("Gauze", 10, 200), 6, 200, 1200);
    var lines := [line, line];
    assert lines[0] == line && lines[1] == line;
    var started := Db(items, [Sale(100, None, Some(3))], []);
    var row := Row(0, line).Saved();
    var once := started.(details := [row], items := map[7 := Item("Gauze", 4, 200)]);
    assert started.items[7 := Item("Gauze", 4, 200)] == once.items;
    assert CommitCurrent(started, 0, lines, 0, 0) == CommitCurrent(once, 0, lines, 1, 1200);
    assert CommitCurrent(once, 0, lines, 1, 1200).failedAt == Some(1);
  }
}
