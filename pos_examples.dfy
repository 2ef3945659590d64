/** Worked sale requests, each evaluated end to end through the POST. */
module PosExamples {
  import opened Wrappers
  import opened PosModels
  import opened PosSerializers

  /** Four units of an item with 10 in stock at 2.00: the sale is created with a
      total of 8.00, one row with subtotal 8.00, and 6 units are left. The
      cashier, date, total and subtotal sent by the client are all ignored. */
  lemma SingleLineSale()
    ensures var db := Db(map[7 := Item("Gauze", 10, 200)], [], []);
      var req := SaleRequest(Some([DetailRequest(7, 4, None, Some(1))]), Some(99), Some(5), Some(1));
      PostSpec(db, req, Some(3), {3, 99}, 100) == Effect(
        Db(map[7 := Item("Gauze", 6, 200)], [Sale(100, Some(800), Some(3))], [SaleDetail(0, 7, 4, 200, 800)]),
        SaleCreated(0))
  {
    var db := Db(map[7 := Item("Gauze", 10, 200)], [], []);
    var d := DetailRequest(7, 4, None, Some(1));
    var line := Line(7, Item("Gauze", 10, 200), 4, 200, 800);
    assert ValidateDetail(d, db.items) == Ok(line);
    var r := ValidateDetails([d], db.items);
    assert [d][0] == d;
    assert r.Ok? && r.value[0] == line;
    assert r.value == [line];
    var started := db.(sales := [Sale(100, None, Some(3))]);
    var after := started.(details := [SaleDetail(0, 7, 4, 200, 800)], items := map[7 := Item("Gauze", 6, 200)]);
    assert CommitFrom(started, 0, [line], 0, 0) == CommitFrom(after, 0, [line], 1, 800);
  }

  /** A price sent with the line replaces the item's own, even a negative one,
      and a quantity of 0 is accepted. */
  lemma LooseLineBounds()
    ensures var items := map[7 := Item("Gauze", 10, 200)];
      && ValidateDetail(DetailRequest(7, 2, Some(-500), None), items) == Ok(Line(7, Item("Gauze", 10, 200), 2, -500, -1000))
      && ValidateDetail(DetailRequest(7, 0, None, None), items) == Ok(Line(7, Item("Gauze", 10, 200), 0, 200, 0))
  {
  }

  /** Two lines of 6 units each for an item with 10 in stock: each line's own
      instance holds 10, so neither falls short; the sale of 12 units is created
      and the item is left with 4. */
  lemma RepeatedItemOversells()
    ensures var db := Db(map[7 := Item("Gauze", 10, 200)], [], []);
      var d := DetailRequest(7, 6, None, None);
      var e := PostSpec(db, SaleRequest(Some([d, d]), None, None, None), Some(3), {3}, 100);
      && e.result == SaleCreated(0)
      && e.db.items[7] == Item("Gauze", 4, 200)
      && e.db.sales[0].totalAmount == Some(2400)
      && |e.db.details| == 2
  {
    var db := Db(map[7 := Item("Gauze", 10, 200)], [], []);
    var d := DetailRequest(7, 6, None, None);
    var line := Line(7, Item("Gauze", 10, 200), 6, 200, 1200);
    assert ValidateDetail(d, db.items) == Ok(line);
    var r := ValidateDetails([d, d], db.items);
    assert [d, d][0] == d && [d, d][1] == d;
    assert r.Ok? && r.value[0] == line && r.value[1] == line;
    assert r.value == [line, line];
    var row := SaleDetail(0, 7, 6, 200, 1200);
    var started := db.(sales := [Sale(100, None, Some(3))]);
    var once := started.(details := [row], items := map[7 := Item("Gauze", 4, 200)]);
    var twice := once.(details := [row, row]);
    assert [line, line][0] == line && [line, line][1] == line;
    assert db.items[7 := Item("Gauze", 4, 200)] == map[7 := Item("Gauze", 4, 200)];
    assert Row(0, line).Saved() == row && Decremented(line) == Item("Gauze", 4, 200);
    assert started.details + [row] == [row] && once.details + [row] == [row, row];
    assert CommitFrom(started, 0, [line, line], 0, 0) == CommitFrom(once, 0, [line, line], 1, 1200);
    assert CommitFrom(once, 0, [line, line], 1, 1200) == CommitFrom(twice, 0, [line, line], 2, 2400);
  }

  /** The two lines of the partial-sale example pass validation as they are. */
  lemma PartialSaleValidated()
    ensures var items := map[1 := Item("Gauze", 5, 200), 2 := Item("Saline", 1, 300)];
      var req := SaleRequest(Some([DetailRequest(1, 2, None, None), DetailRequest(2, 3, None, None)]), None, None, None);
      ValidateSale(req, items, {3}) == Ok([Line(1, Item("Gauze", 5, 200), 2, 200, 400), Line(2, Item("Saline", 1, 300), 3, 300, 900)])
  {
    var items := map[1 := Item("Gauze", 5, 200), 2 := Item("Saline", 1, 300)];
    var d1, d2 := DetailRequest(1, 2, None, None), DetailRequest(2, 3, None, None);
    var l1, l2 := Line(1, Item("Gauze", 5, 200), 2, 200, 400), Line(2, Item("Saline", 1, 300), 3, 300, 900);
    assert ValidateDetail(d1, items) == Ok(l1);
    assert ValidateDetail(d2, items) == Ok(l2);
    var r := ValidateDetails([d1, d2], items);
    assert [d1, d2][0] == d1 && [d1, d2][1] == d2;
    assert r.Ok? && r.value[0] == l1 && r.value[1] == l2;
    assert r.value == [l1, l2];
  }

  /** The commit of the partial-sale example: the first line is saved, the second
      writes its row and then falls short. */
  lemma PartialSaleCommit()
    ensures var items := map[1 := Item("Gauze", 5, 200), 2 := Item("Saline", 1, 300)];
      var l1, l2 := Line(1, Item("Gauze", 5, 200), 2, 200, 400), Line(2, Item("Saline", 1, 300), 3, 300, 900);
      CommitFrom(Db(items, [Sale(100, None, Some(3))], []), 0, [l1, l2], 0, 0) ==
        Progress(Db(map[1 := Item("Gauze", 3, 200), 2 := Item("Saline", 1, 300)],
                    [Sale(100, None, Some(3))],
                    [SaleDetail(0, 1, 2, 200, 400), SaleDetail(0, 2, 3, 300, 900)]),
                 1300, Some(1))
  {
    var items := map[1 := Item("Gauze", 5, 200), 2 := Item("Saline", 1, 300)];
    var l1, l2 := Line(1, Item("Gauze", 5, 200), 2, 200, 400), Line(2, Item("Saline", 1, 300), 3, 300, 900);
    assert [l1, l2][0] == l1 && [l1, l2][1] == l2;
    var started := Db(items, [Sale(100, None, Some(3))], []);
    var once := started.(details := [SaleDetail(0, 1, 2, 200, 400)], items := items[1 := Item("Gauze", 3, 200)]);
    assert CommitFrom(started, 0, [l1, l2], 0, 0) == CommitFrom(once, 0, [l1, l2], 1, 400);
    assert Short(l2) && Row(0, l2).Saved() == SaleDetail(0, 2, 3, 300, 900);
    assert once.details + [SaleDetail(0, 2, 3, 300, 900)] == [SaleDetail(0, 1, 2, 200, 400), SaleDetail(0, 2, 3, 300, 900)];
    assert items[1 := Item("Gauze", 3, 200)] == map[1 := Item("Gauze", 3, 200), 2 := Item("Saline", 1, 300)];
  }

  /** The second line asks for 3 units of an item with 1 in stock: the answer is
      400, yet the sale row (with no total), both detail rows and the first
      item's decrement all stay. */
  lemma FailureLeavesPartialSale()
    ensures var db := Db(map[1 := Item("Gauze", 5, 200), 2 := Item("Saline", 1, 300)], [], []);
      var req := SaleRequest(Some([DetailRequest(1, 2, None, None), DetailRequest(2, 3, None, None)]), None, None, None);
      PostSpec(db, req, Some(3), {3}, 100) == Effect(
        Db(map[1 := Item("Gauze", 3, 200), 2 := Item("Saline", 1, 300)],
           [Sale(100, None, Some(3))],
           [SaleDetail(0, 1, 2, 200, 400), SaleDetail(0, 2, 3, 300, 900)]),
        StockRefused("Insufficient stock for item Saline"))
  {
    var items := map[1 := Item("Gauze", 5, 200), 2 := Item("Saline", 1, 300)];
    var l1, l2 := Line(1, Item("Gauze", 5, 200), 2, 200, 400), Line(2, Item("Saline", 1, 300), 3, 300, 900);
    PartialSaleValidated();
    PartialSaleCommit();
    var started := Db(items, [Sale(100, None, Some(3))], []);
    assert Db(items, [], []).(sales := [] + [Sale(100, None, Some(3))]) == started;
    assert [l1, l2][1] == l2;
    assert "Insufficient stock for item " + l2.snapshot.name == "Insufficient stock for item Saline";
  }
}
