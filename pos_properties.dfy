/** What `SaleSerializer.create` and the sale POST do, stated against reference
    definitions written independently of the loop: which line raises, which
    rows are written, what the total is and what each item row ends up holding. */
module PosProperties {
  import opened Wrappers
  import opened AccountsModels
  import opened PosModels
  import opened PosSerializers

  /** The first line whose own item instance cannot cover it. */
  function FirstShortfall(lines: seq<Line>): (r: Option<nat>)
    ensures r.Some? ==> r.value < |lines| && Short(lines[r.value])
    ensures r.Some? ==> forall j :: 0 <= j < r.value ==> !Short(lines[j])
    ensures r.None? ==> forall j :: 0 <= j < |lines| ==> !Short(lines[j])
  {
    if lines == [] then None
    else if Short(lines[0]) then Some(0)
    else Shift(FirstShortfall(lines[1..]), 1)
  }

  function Shift(o: Option<nat>, offset: nat): Option<nat> {
    match o
    case None => None
    case Some(j) => Some(j + offset)
  }

  /** How many detail rows are written: every line up to and including the one that raises. */
  function RowCount(lines: seq<Line>): (n: nat)
    ensures n <= |lines|
  {
    match FirstShortfall(lines)
    case None => |lines|
    case Some(j) => j + 1
  }

  /** How many item rows are saved: the lines before the one that raises. */
  function SaveCount(lines: seq<Line>): (n: nat)
    ensures n <= |lines|
  {
    match FirstShortfall(lines)
    case None => |lines|
    case Some(j) => j
  }

  /** The saved rows of the given lines, in order. */
  function Rows(sale: SaleId, lines: seq<Line>): (rs: seq<SaleDetail>)
    ensures |rs| == |lines|
    ensures forall i :: 0 <= i < |lines| ==> rs[i] == Row(sale, lines[i]).Saved()
  {
    if lines == [] then [] else [Row(sale, lines[0]).Saved()] + Rows(sale, lines[1..])
  }

  function SumSubtotals(lines: seq<Line>): int {
    if lines == [] then 0 else lines[0].subtotal + SumSubtotals(lines[1..])
  }

  /** The item table after each line's decremented instance is saved in turn. */
  function ApplySaves(items: map<ItemId, Item>, lines: seq<Line>): map<ItemId, Item>
    decreases |lines|
  {
    if lines == [] then items else ApplySaves(items[lines[0].item := Decremented(lines[0])], lines[1..])
  }

  /** The reference definitions on a line that does not fall short followed by
      more lines. */
  lemma ReferenceCons(sale: SaleId, items: map<ItemId, Item>, line: Line, tail: seq<Line>)
    requires !Short(line)
    ensures var rest := [line] + tail;
      && FirstShortfall(rest) == Shift(FirstShortfall(tail), 1)
      && RowCount(rest) == RowCount(tail) + 1
      && SaveCount(rest) == SaveCount(tail) + 1
      && Rows(sale, rest[..RowCount(rest)]) == [Row(sale, line).Saved()] + Rows(sale, tail[..RowCount(tail)])
      && ApplySaves(items, rest[..SaveCount(rest)]) == ApplySaves(items[line.item := Decremented(line)], tail[..SaveCount(tail)])
      && SumSubtotals(rest[..RowCount(rest)]) == line.subtotal + SumSubtotals(tail[..RowCount(tail)])
  {
    var rest := [line] + tail;
    assert rest[0] == line && rest[1..] == tail;
    var written, stored := tail[..RowCount(tail)], tail[..SaveCount(tail)];
    assert rest[..RowCount(rest)] == [line] + written;
    assert rest[..SaveCount(rest)] == [line] + stored;
    assert ([line] + written)[1..] == written;
    assert ([line] + stored)[1..] == stored;
  }

  /** The loop stops at a line that falls short, after writing its row. */
  lemma ShortfallStep(db: Db, sale: SaleId, lines: seq<Line>, i: nat, total: int)
    requires i < |lines| && Short(lines[i])
    ensures CommitFrom(db, sale, lines, i, total) == ClosedForm(db, sale, lines, i, total)
  {
    var rest, line := lines[i..], lines[i];
    assert rest[0] == line;
    assert FirstShortfall(rest) == Some(0);
    assert rest[..1] == [line];
    assert Rows(sale, [line]) == [Row(sale, line).Saved()];
    assert SumSubtotals([line]) == line.subtotal + SumSubtotals([]);
  }

  /** The closed form of the loop from line `i` on, as the database, total and
      failure index it stops with. */
  function ClosedForm(db: Db, sale: SaleId, lines: seq<Line>, i: nat, total: int): Progress
    requires i <= |lines|
  {
    var rest := lines[i..];
    Progress(
      db.(details := db.details + Rows(sale, rest[..RowCount(rest)]),
          items := ApplySaves(db.items, rest[..SaveCount(rest)])),
      total + SumSubtotals(rest[..RowCount(rest)]),
      Shift(FirstShortfall(rest), i))
  }

  /** The step over a line that does not fall short: the closed form from the
      next line on, after this line's row and item save, is the closed form
      from this line on. */
  lemma CoveredStep(db: Db, sale: SaleId, lines: seq<Line>, i: nat, total: int)
    requires i < |lines| && !Short(lines[i])
    ensures var line := lines[i];
      var next := db.(details := db.details + [Row(sale, line).Saved()],
                      items := db.items[line.item := Decremented(line)]);
      ClosedForm(next, sale, lines, i + 1, total + line.subtotal) == ClosedForm(db, sale, lines, i, total)
  {
    var rest, line, tail := lines[i..], lines[i], lines[i + 1..];
    var row := Row(sale, line).Saved();
    assert rest == [line] + tail;
    ReferenceCons(sale, db.items, line, tail);
    var rowsTail := Rows(sale, tail[..RowCount(tail)]);
    assert (db.details + [row]) + rowsTail == db.details + ([row] + rowsTail);
  }

  /** The loop from line `i` on equals the reference definitions applied to the
      remaining lines. */
  lemma {:induction false} CommitFromClosedForm(db: Db, sale: SaleId, lines: seq<Line>, i: nat, total: int)
    requires i <= |lines|
    ensures CommitFrom(db, sale, lines, i, total) == ClosedForm(db, sale, lines, i, total)
    decreases |lines| - i
  {
    if i == |lines| {
      assert lines[i..] == [];
    } else if Short(lines[i]) {
      ShortfallStep(db, sale, lines, i, total);
    } else {
      var line := lines[i];
      var next := db.(details := db.details + [Row(sale, line).Saved()],
                      items := db.items[line.item := Decremented(line)]);
      CommitFromClosedForm(next, sale, lines, i + 1, total + line.subtotal);
      CoveredStep(db, sale, lines, i, total);
    }
  }

  /** Everything `create` does, in one statement: the sale row is appended (with
      the total only when no line raised), the rows of the lines up to the first
      shortfall are appended in order, and the lines before it are saved. */
  lemma CreateEffects(db: Db, lines: seq<Line>, cashier: UserId, now: int)
    ensures var e := CreateSpec(db, lines, cashier, now);
      && (e.result.InsufficientStock? <==> FirstShortfall(lines).Some?)
      && (e.result.Created? ==> e.result.sale == |db.sales|)
      && (e.result.InsufficientStock? ==>
            e.result.message == "Insufficient stock for item " + lines[FirstShortfall(lines).value].snapshot.name)
      && e.db.details == db.details + Rows(|db.sales|, lines[..RowCount(lines)])
      && e.db.items == ApplySaves(db.items, lines[..SaveCount(lines)])
      && e.db.sales == db.sales + [Sale(now, if FirstShortfall(lines).None? then Some(SumSubtotals(lines)) else None, Some(cashier))]
  {
    var sale := |db.sales|;
    var started := db.(sales := db.sales + [Sale(now, None, Some(cashier))]);
    CommitFromClosedForm(started, sale, lines, 0, 0);
    assert lines[0..] == lines;
    if FirstShortfall(lines).None? {
      assert lines[..|lines|] == lines;
    }
  }

  /** An empty sale is created with a total of 0 and touches no item. */
  lemma EmptySaleTotalsZero(db: Db, cashier: UserId, now: int)
    ensures CreateSpec(db, [], cashier, now) ==
      Effect(db.(sales := db.sales + [Sale(now, Some(0), Some(cashier))]), Created(|db.sales|))
  {
    CreateEffects(db, [], cashier, now);
  }

  /** A sale in which no line falls short is created with the sum of the line
      subtotals as its total, one row per line in request order, and every
      line's item instance saved in order. */
  lemma SuccessfulCreate(db: Db, lines: seq<Line>, cashier: UserId, now: int)
    requires forall j :: 0 <= j < |lines| ==> !Short(lines[j])
    ensures var e := CreateSpec(db, lines, cashier, now);
      && e.result == Created(|db.sales|)
      && e.db.sales[|db.sales|].totalAmount == Some(SumSubtotals(lines))
      && e.db.details == db.details + Rows(|db.sales|, lines)
      && e.db.items == ApplySaves(db.items, lines)
  {
    CreateEffects(db, lines, cashier, now);
    assert lines[..|lines|] == lines;
  }

  /** `create` is not atomic: when line `j` raises, the sale row stays with no
      total, the rows of lines 0..j stay (line j's own row included), and the
      item saves of the lines before j stay. */
  lemma FailedCreateKeepsEarlierWork(db: Db, lines: seq<Line>, cashier: UserId, now: int, j: nat)
    requires FirstShortfall(lines) == Some(j)
    ensures var e := CreateSpec(db, lines, cashier, now);
      && e.result.InsufficientStock?
      && e.db.sales == db.sales + [Sale(now, None, Some(cashier))]
      && e.db.details == db.details + Rows(|db.sales|, lines[..j + 1])
      && e.db.items == ApplySaves(db.items, lines[..j])
  {
    CreateEffects(db, lines, cashier, now);
  }

  /** An item that no saved line names keeps its row. */
  lemma {:induction false} ApplySavesUntouched(items: map<ItemId, Item>, lines: seq<Line>, k: ItemId)
    requires forall j :: 0 <= j < |lines| ==> lines[j].item != k
    ensures k in ApplySaves(items, lines) <==> k in items
    ensures k in items ==> ApplySaves(items, lines)[k] == items[k]
    decreases |lines|
  {
    if lines != [] {
      var tail := lines[1..];
      assert forall j :: 0 <= j < |tail| ==> tail[j].item == lines[j + 1].item;
      ApplySavesUntouched(items[lines[0].item := Decremented(lines[0])], tail, k);
    }
  }

  /** An item named by some saved line holds the decremented instance of the
      last line naming it: each line decrements its own copy, and the last save wins. */
  lemma {:induction false} ApplySavesLastWins(items: map<ItemId, Item>, lines: seq<Line>, j: nat)
    requires j < |lines|
    requires forall m :: j < m < |lines| ==> lines[m].item != lines[j].item
    ensures lines[j].item in ApplySaves(items, lines)
    ensures ApplySaves(items, lines)[lines[j].item] == Decremented(lines[j])
    decreases |lines|
  {
    var tail := lines[1..];
    var next := items[lines[0].item := Decremented(lines[0])];
    if j == 0 {
      assert forall m :: 0 <= m < |tail| ==> tail[m].item == lines[m + 1].item;
      ApplySavesUntouched(next, tail, lines[0].item);
    } else {
      assert tail[j - 1] == lines[j];
      assert forall m :: j - 1 < m < |tail| ==> tail[m].item == lines[m + 1].item;
      ApplySavesLastWins(next, tail, j - 1);
    }
  }

  /** Saving lines whose items all exist adds no item and removes none. */
  lemma {:induction false} ApplySavesKeys(items: map<ItemId, Item>, lines: seq<Line>)
    requires forall j :: 0 <= j < |lines| ==> lines[j].item in items
    ensures ApplySaves(items, lines).Keys == items.Keys
    decreases |lines|
  {
    if lines != [] {
      var tail := lines[1..];
      var next := items[lines[0].item := Decremented(lines[0])];
      assert next.Keys == items.Keys;
      assert forall j :: 0 <= j < |tail| ==> tail[j].item == lines[j + 1].item;
      ApplySavesKeys(next, tail);
    }
  }

  /** Saving lines that do not fall short never stores a negative quantity. */
  lemma {:induction false} ApplySavesNonNegative(items: map<ItemId, Item>, lines: seq<Line>)
    requires forall k :: k in items ==> items[k].quantity >= 0
    requires forall j :: 0 <= j < |lines| ==> !Short(lines[j])
    ensures forall k :: k in ApplySaves(items, lines) ==> ApplySaves(items, lines)[k].quantity >= 0
    decreases |lines|
  {
    if lines != [] {
      var tail := lines[1..];
      assert forall j :: 0 <= j < |tail| ==> tail[j] == lines[j + 1];
      ApplySavesNonNegative(items[lines[0].item := Decremented(lines[0])], tail);
    }
  }

  /** The lines validation produces from the item table `items`: each holds the
      item's current row as its instance and its subtotal is quantity times price. */
  predicate LinesFrom(items: map<ItemId, Item>, lines: seq<Line>) {
    forall j :: 0 <= j < |lines| ==>
      lines[j].item in items && lines[j].snapshot == items[lines[j].item]
      && lines[j].subtotal == lines[j].quantity * lines[j].unitPrice
  }

  /** Items that no line names are left as they were, whether the sale succeeds or not. */
  lemma UnreferencedItemsUnchanged(db: Db, lines: seq<Line>, cashier: UserId, now: int, k: ItemId)
    requires forall j :: 0 <= j < |lines| ==> lines[j].item != k
    ensures var items := CreateSpec(db, lines, cashier, now).db.items;
      (k in items <==> k in db.items) && (k in db.items ==> items[k] == db.items[k])
  {
    CreateEffects(db, lines, cashier, now);
    var saved := lines[..SaveCount(lines)];
    assert forall j :: 0 <= j < |saved| ==> saved[j] == lines[j];
    ApplySavesUntouched(db.items, saved, k);
  }

  /** When several lines name one item, each decrements the same starting
      quantity and the item ends with the starting quantity less the last such
      line's quantity alone. */
  lemma RepeatedItemLastLineWins(db: Db, lines: seq<Line>, cashier: UserId, now: int, j: nat)
    requires LinesFrom(db.items, lines)
    requires FirstShortfall(lines).None?
    requires j < |lines|
    requires forall m :: j < m < |lines| ==> lines[m].item != lines[j].item
    ensures var items := CreateSpec(db, lines, cashier, now).db.items;
      lines[j].item in items
      && items[lines[j].item].quantity == db.items[lines[j].item].quantity - lines[j].quantity
  {
    SuccessfulCreate(db, lines, cashier, now);
    ApplySavesLastWins(db.items, lines, j);
  }

  /** On success, an item named by exactly one line loses exactly that line's
      quantity: the case of the lemma above where no other line names it. */
  lemma SingleLineItemDecrements(db: Db, lines: seq<Line>, cashier: UserId, now: int, j: nat)
    requires LinesFrom(db.items, lines)
    requires FirstShortfall(lines).None?
    requires j < |lines|
    requires forall m :: 0 <= m < |lines| && m != j ==> lines[m].item != lines[j].item
    ensures var items := CreateSpec(db, lines, cashier, now).db.items;
      lines[j].item in items
      && items[lines[j].item].quantity == db.items[lines[j].item].quantity - lines[j].quantity
  {
    RepeatedItemLastLineWins(db, lines, cashier, now, j);
  }

  /** No negative quantity is ever stored: the line that would cause one raises
      before its item is saved. */
  lemma StockNeverNegative(db: Db, lines: seq<Line>, cashier: UserId, now: int)
    requires forall k :: k in db.items ==> db.items[k].quantity >= 0
    ensures var items := CreateSpec(db, lines, cashier, now).db.items;
      forall k :: k in items ==> items[k].quantity >= 0
  {
    CreateEffects(db, lines, cashier, now);
    var saved := lines[..SaveCount(lines)];
    assert forall j :: 0 <= j < |saved| ==> saved[j] == lines[j];
    ApplySavesNonNegative(db.items, saved);
  }

  /** The table invariants the schema enforces: non-negative item quantities,
      and detail rows that point at an existing sale and item and whose
      subtotal is quantity times unit price. */
  ghost predicate WellFormed(db: Db) {
    && (forall k :: k in db.items ==> db.items[k].quantity >= 0)
    && (forall j :: 0 <= j < |db.details| ==>
          db.details[j].sale < |db.sales| && db.details[j].item in db.items
          && db.details[j].subtotal == db.details[j].quantity * db.details[j].unitPrice)
  }

  /** `create` on validated lines keeps the tables well formed, whether it
      succeeds or raises part-way. */
  lemma CreatePreservesWellFormed(db: Db, lines: seq<Line>, cashier: UserId, now: int)
    requires WellFormed(db)
    requires LinesFrom(db.items, lines)
    ensures WellFormed(CreateSpec(db, lines, cashier, now).db)
  {
    var e := CreateSpec(db, lines, cashier, now);
    CreateEffects(db, lines, cashier, now);
    StockNeverNegative(db, lines, cashier, now);
    var saved := lines[..SaveCount(lines)];
    assert forall j :: 0 <= j < |saved| ==> saved[j] == lines[j];
    ApplySavesKeys(db.items, saved);
    var added := Rows(|db.sales|, lines[..RowCount(lines)]);
    forall j | 0 <= j < |e.db.details|
      ensures e.db.details[j].sale < |e.db.sales| && e.db.details[j].item in e.db.items
      ensures e.db.details[j].subtotal == e.db.details[j].quantity * e.db.details[j].unitPrice
    {
      if j >= |db.details| {
        var m := j - |db.details|;
        assert e.db.details[j] == added[m];
        assert lines[..RowCount(lines)][m] == lines[m];
      }
    }
  }

  /** The total the request asks for: each line's quantity times its resolved price. */
  function RequestTotal(ds: seq<DetailRequest>, items: map<ItemId, Item>): int
    requires forall i :: 0 <= i < |ds| ==> ds[i].item in items
  {
    if ds == [] then 0
    else ds[0].quantity * ResolvedPrice(ds[0], items[ds[0].item]) + RequestTotal(ds[1..], items)
  }

  /** The subtotals of validated lines add up to the request's total at the
      resolved prices. */
  lemma {:induction false} ValidatedTotal(ds: seq<DetailRequest>, items: map<ItemId, Item>, lines: seq<Line>)
    requires |lines| == |ds|
    requires forall i :: 0 <= i < |ds| ==> ValidateDetail(ds[i], items) == Ok(lines[i])
    ensures forall i :: 0 <= i < |ds| ==> ds[i].item in items
    ensures SumSubtotals(lines) == RequestTotal(ds, items)
  {
    if ds != [] {
      assert ValidateDetail(ds[0], items) == Ok(lines[0]);
      assert forall i :: 0 <= i < |ds| - 1 ==> ds[1..][i] == ds[i + 1] && lines[1..][i] == lines[i + 1];
      ValidatedTotal(ds[1..], items, lines[1..]);
    }
  }

  /** A value sent for a line's subtotal changes nothing. */
  lemma ClientSubtotalIgnored(d: DetailRequest, items: map<ItemId, Item>, sent: Option<int>)
    ensures ValidateDetail(d.(subtotal := sent), items) == ValidateDetail(d, items)
  {
  }

  /** A request is refused, or not let in, without any table changing. */
  lemma RefusedPostChangesNothing(db: Db, req: SaleRequest, user: Option<UserId>, users: set<UserId>, now: int)
    requires PostSpec(db, req, user, users, now).result.NotAuthenticated?
      || PostSpec(db, req, user, users, now).result.BadRequest?
    ensures PostSpec(db, req, user, users, now).db == db
  {
  }

  /** A request that passes validation always opens a sale whose cashier is the
      requesting user, whatever cashier it named, and whose date is the server's
      clock, whatever date or total it sent. */
  lemma PostSetsCashierAndDate(db: Db, req: SaleRequest, user: UserId, users: set<UserId>, now: int)
    requires ValidateSale(req, db.items, users).Ok?
    ensures var e := PostSpec(db, req, Some(user), users, now);
      |e.db.sales| == |db.sales| + 1
      && e.db.sales[|db.sales|].cashier == Some(user)
      && e.db.sales[|db.sales|].date == now
  {
    CreateEffects(db, ValidateSale(req, db.items, users).value, user, now);
  }

  /** The read-only `date` and `total_amount` of a request have no effect. */
  lemma PostIgnoresReadOnlyFields(db: Db, req: SaleRequest, user: Option<UserId>, users: set<UserId>, now: int, date: Option<int>, total: Option<int>)
    ensures PostSpec(db, req.(date := date, totalAmount := total), user, users, now) == PostSpec(db, req, user, users, now)
  {
    assert ValidateSale(req.(date := date, totalAmount := total), db.items, users) == ValidateSale(req, db.items, users);
  }

  /** A created sale's total is the request's quantities times their resolved
      prices, and exactly one row per requested line was written. */
  lemma PostCreatedTotal(db: Db, req: SaleRequest, user: UserId, users: set<UserId>, now: int)
    requires PostSpec(db, req, Some(user), users, now).result.SaleCreated?
    ensures req.details.Some?
    ensures forall i :: 0 <= i < |req.details.value| ==> req.details.value[i].item in db.items
    ensures var e := PostSpec(db, req, Some(user), users, now);
      && e.result.sale == |db.sales|
      && e.db.sales[|db.sales|].totalAmount == Some(RequestTotal(req.details.value, db.items))
      && |e.db.details| == |db.details| + |req.details.value|
  {
    var lines := ValidateSale(req, db.items, users).value;
    CreateEffects(db, lines, user, now);
    ValidatedTotal(req.details.value, db.items, lines);
    assert lines[..|lines|] == lines;
  }

  /** The sale POST keeps the tables well formed, whatever it answers. */
  lemma PostPreservesWellFormed(db: Db, req: SaleRequest, user: Option<UserId>, users: set<UserId>, now: int)
    requires WellFormed(db)
    ensures WellFormed(PostSpec(db, req, user, users, now).db)
  {
    if user.Some? && ValidateSale(req, db.items, users).Ok? {
      var lines := ValidateSale(req, db.items, users).value;
      assert LinesFrom(db.items, lines);
      CreatePreservesWellFormed(db, lines, user.value, now);
    }
  }
}
