/** pos/serializers.py: validation of a sale request (SaleDetailSerializer and
    the nested list of SaleSerializer) and `SaleSerializer.create`, with the
    POST of pos/views.py that calls them. The database is the item table, the
    sale table and the sale-detail table. */
module PosSerializers {
  import opened Wrappers
  import opened Money
  import opened AccountsModels
  import opened PosModels

  /** One element of the request's `details` list. `subtotal` is read-only on
      the serializer, so a value sent for it is never looked at. */
  datatype DetailRequest = DetailRequest(item: ItemId, quantity: int, unitPrice: Option<int>, subtotal: Option<int>)

  /** The field errors of one line, in the serializer's field order. */
  datatype DetailError =
    | ItemDoesNotExist(pk: ItemId)   // PrimaryKeyRelatedField over Item.objects.all()
    | QuantityBelowZero              // the PositiveIntegerField's minimum of 0
    | PriceTooManyDigits             // more than 10 digits in the DecimalField

  /** A validated line: the item instance the related field fetched for this
      line alone, the quantity, and the unit price and subtotal set by `validate`. */
  datatype Line = Line(item: ItemId, snapshot: Item, quantity: nat, unitPrice: int, subtotal: int)

  /** The field errors of one line; empty when every field is valid. */
  function DetailErrors(d: DetailRequest, items: map<ItemId, Item>): (es: seq<DetailError>)
    ensures ItemDoesNotExist(d.item) in es <==> d.item !in items
    ensures QuantityBelowZero in es <==> d.quantity < 0
    ensures PriceTooManyDigits in es <==> d.unitPrice.Some? && !FitsDecimal(d.unitPrice.value)
    ensures es == [] <==> d.item in items && d.quantity >= 0 && (d.unitPrice.None? || FitsDecimal(d.unitPrice.value))
  {
    (if d.item in items then [] else [ItemDoesNotExist(d.item)])
    + (if d.quantity < 0 then [QuantityBelowZero] else [])
    + (if d.unitPrice.Some? && !FitsDecimal(d.unitPrice.value) then [PriceTooManyDigits] else [])
  }

  /** The unit price `validate` settles on: the one sent, else the item's own. */
  function ResolvedPrice(d: DetailRequest, item: Item): (p: int)
    ensures d.unitPrice == Some(p) || (d.unitPrice.None? && p == item.unitPrice)
  {
    match d.unitPrice
    case Some(p) => p
    case None => item.unitPrice
  }

  /** `SaleDetailSerializer`: the field checks, then `validate`, which fixes the
      unit price and recomputes the subtotal. */
  function ValidateDetail(d: DetailRequest, items: map<ItemId, Item>): (r: Result<Line, seq<DetailError>>)
    ensures r.Err? <==> DetailErrors(d, items) != []
    ensures r.Err? ==> r.error == DetailErrors(d, items)
    ensures r.Ok? ==> r.value.item == d.item && r.value.snapshot == items[d.item] && r.value.quantity == d.quantity
    ensures r.Ok? ==> r.value.unitPrice == ResolvedPrice(d, items[d.item])
    ensures r.Ok? ==> r.value.subtotal == r.value.quantity * r.value.unitPrice
  {
    var errors := DetailErrors(d, items);
    if errors != [] then Err(errors)
    else
      var item := items[d.item];
      var unitPrice := ResolvedPrice(d, item);
      Ok(Line(d.item, item, d.quantity, unitPrice, d.quantity * unitPrice))
  }

  /** A line that passed validation for an item the table can hold carries a
      unit price that fits the DecimalField(10, 2) of the detail row. */
  lemma AcceptedPriceStorable(d: DetailRequest, items: map<ItemId, Item>)
    requires d.item in items && ItemStorable(items[d.item])
    requires ValidateDetail(d, items).Ok?
    ensures FitsDecimal(ValidateDetail(d, items).value.unitPrice)
    ensures ValidateDetail(d, items).value.quantity >= 0
  {
  }

  /** The nested `details` list: every line is validated; when any fails the
      error holds one entry per line, empty for the lines that passed. */
  function ValidateDetails(ds: seq<DetailRequest>, items: map<ItemId, Item>): (r: Result<seq<Line>, seq<seq<DetailError>>>)
    ensures r.Ok? <==> forall i :: 0 <= i < |ds| ==> ValidateDetail(ds[i], items).Ok?
    ensures r.Ok? ==> |r.value| == |ds| && forall i :: 0 <= i < |ds| ==> ValidateDetail(ds[i], items) == Ok(r.value[i])
    ensures r.Err? ==> |r.error| == |ds| && forall i :: 0 <= i < |ds| ==> r.error[i] == DetailErrors(ds[i], items)
  {
    if forall i :: 0 <= i < |ds| ==> ValidateDetail(ds[i], items).Ok? then
      Ok(seq(|ds|, i requires 0 <= i < |ds| => ValidateDetail(ds[i], items).value))
    else
      Err(seq(|ds|, i requires 0 <= i < |ds| => DetailErrors(ds[i], items)))
  }

  /** A sale request. `date` and `total_amount` are read-only on the serializer;
      `details` may be missing; `cashier` is a nullable user reference. */
  datatype SaleRequest = SaleRequest(
    details: Option<seq<DetailRequest>>,
    cashier: Option<UserId>,
    date: Option<int>,
    totalAmount: Option<int>)

  datatype SaleError =
    | CashierDoesNotExist(pk: UserId)
    | DetailsRequired
    | DetailsInvalid(perLine: seq<seq<DetailError>>)

  /** The cashier field's error, if any. */
  function CashierErrors(req: SaleRequest, users: set<UserId>): seq<SaleError> {
    if req.cashier.Some? && req.cashier.value !in users then [CashierDoesNotExist(req.cashier.value)] else []
  }

  /** The details field's error, if any. */
  function DetailsErrors(req: SaleRequest, items: map<ItemId, Item>): seq<SaleError> {
    match req.details
    case None => [DetailsRequired]
    case Some(ds) =>
      match ValidateDetails(ds, items)
      case Ok(_) => []
      case Err(perLine) => [DetailsInvalid(perLine)]
  }

  /** `SaleSerializer.is_valid`: every writable field is checked and all errors
      are reported together; on success the validated lines, in request order. */
  function ValidateSale(req: SaleRequest, items: map<ItemId, Item>, users: set<UserId>): (r: Result<seq<Line>, seq<SaleError>>)
    ensures r.Ok? <==>
      (req.cashier.None? || req.cashier.value in users)
      && req.details.Some? && ValidateDetails(req.details.value, items).Ok?
    ensures r.Ok? ==> r.value == ValidateDetails(req.details.value, items).value
    ensures r.Err? ==> r.error == CashierErrors(req, users) + DetailsErrors(req, items) && r.error != []
  {
    var errors := CashierErrors(req, users) + DetailsErrors(req, items);
    if errors != [] then Err(errors) else Ok(ValidateDetails(req.details.value, items).value)
  }

  /** The three tables the sale workflow touches. A sale's id is its index. */
  datatype Db = Db(items: map<ItemId, Item>, sales: seq<Sale>, details: seq<SaleDetail>)

  /** The detail row `create` builds for a line of sale `sale`. */
  function Row(sale: SaleId, line: Line): SaleDetail {
    SaleDetail(sale, line.item, line.quantity, line.unitPrice, line.subtotal)
  }

  /** Whether the line's own item instance cannot cover its quantity. */
  predicate Short(line: Line) {
    line.snapshot.quantity - line.quantity < 0
  }

  /** The item instance of the line after `item.quantity -= quantity`. */
  function Decremented(line: Line): Item {
    line.snapshot.(quantity := line.snapshot.quantity - line.quantity)
  }

  /** The state of `create`'s loop after it has stopped: the database, the
      running total, and the index of the line that raised, if one did. */
  datatype Progress = Progress(db: Db, total: int, failedAt: Option<nat>)

  /** The loop of `create` from line `i` on, with running total `total`: the
      line's row is saved, its item instance decremented, and a negative result
      raises before that item is saved. */
  function CommitFrom(db: Db, sale: SaleId, lines: seq<Line>, i: nat, total: int): (p: Progress)
    requires i <= |lines|
    ensures p.db.sales == db.sales
    ensures p.failedAt.Some? ==> i <= p.failedAt.value < |lines| && Short(lines[p.failedAt.value])
    decreases |lines| - i
  {
    if i == |lines| then Progress(db, total, None)
    else
      var line := lines[i];
      var saved := db.(details := db.details + [Row(sale, line).Saved()]);
      var item := Decremented(line);
      if item.quantity < 0 then Progress(saved, total + line.subtotal, Some(i))
      else CommitFrom(saved.(items := saved.items[line.item := item]), sale, lines, i + 1, total + line.subtotal)
  }

  datatype CreateOutcome = Created(sale: SaleId) | InsufficientStock(message: string)

  /** A database together with what the operation returned. */
  datatype Effect<T> = Effect(db: Db, result: T)

  /** `SaleSerializer.create`: the sale row is created first, with no total; the
      lines are committed in order; only when none raised is the total saved. */
  function CreateSpec(db: Db, lines: seq<Line>, cashier: UserId, now: int): (e: Effect<CreateOutcome>)
    ensures |e.db.sales| == |db.sales| + 1 && e.db.sales[..|db.sales|] == db.sales
    ensures var row := e.db.sales[|db.sales|];
      row.date == now && row.cashier == Some(cashier)
      && (e.result.Created? <==> row.totalAmount.Some?)
    ensures e.result.Created? ==> e.result.sale == |db.sales|
  {
    var sale := |db.sales|;
    var started := db.(sales := db.sales + [Sale(now, None, Some(cashier))]);
    var p := CommitFrom(started, sale, lines, 0, 0);
    match p.failedAt
    case Some(i) =>
      Effect(p.db, InsufficientStock("Insufficient stock for item " + lines[i].snapshot.name))
    case None =>
      Effect(p.db.(sales := p.db.sales[sale := Sale(now, Some(p.total), Some(cashier))]), Created(sale))
  }

  /** The answer to a POST on the sale list. */
  datatype Response =
    | NotAuthenticated
    | BadRequest(errors: seq<SaleError>)
    | StockRefused(message: string)
    | SaleCreated(sale: SaleId)

  /** `SaleListCreateView.post`: IsAuthenticated, then validation, then `create`
      with the cashier set to the requesting user. A ValidationError raised
      inside `create` also answers 400, but what `create` wrote stays. */
  function PostSpec(db: Db, req: SaleRequest, user: Option<UserId>, users: set<UserId>, now: int): (e: Effect<Response>)
    ensures e.result.NotAuthenticated? <==> user.None?
    ensures e.result.BadRequest? <==> user.Some? && ValidateSale(req, db.items, users).Err?
    ensures e.result.BadRequest? ==> e.result.errors == ValidateSale(req, db.items, users).error
    ensures e.result.NotAuthenticated? || e.result.BadRequest? ==> e.db == db
    ensures user.Some? && ValidateSale(req, db.items, users).Ok? ==>
      var created := CreateSpec(db, ValidateSale(req, db.items, users).value, user.value, now);
      e.db == created.db && (e.result.SaleCreated? <==> created.result.Created?)
  {
    if user.None? then Effect(db, NotAuthenticated)
    else
      match ValidateSale(req, db.items, users)
      case Err(errors) => Effect(db, BadRequest(errors))
      case Ok(lines) =>
        var created := CreateSpec(db, lines, user.value, now);
        match created.result
        case Created(sale) => Effect(created.db, SaleCreated(sale))
        case InsufficientStock(message) => Effect(created.db, StockRefused(message))
  }

  /** The database behind the POS views. */
  class SaleStore {
    var items: map<ItemId, Item>
    var sales: seq<Sale>
    var details: seq<SaleDetail>

    function State(): Db
      reads this
    {
      Db(items, sales, details)
    }

    constructor (db: Db)
      ensures State() == db
    {
      items, sales, details := db.items, db.sales, db.details;
    }

    /** `SaleDetail.objects.create`: the row goes through `SaleDetail.save`. */
    method SaveDetail(row: SaleDetail)
      modifies this
      ensures State() == old(State()).(details := old(details) + [row.Saved()])
    {
      var stored := row.(subtotal := row.quantity * row.unitPrice);
      details := details + [stored];
    }

    /** `SaleSerializer.create`, step by step. */
    method Create(lines: seq<Line>, cashier: UserId, now: int) returns (outcome: CreateOutcome)
      modifies this
      ensures Effect(State(), outcome) == CreateSpec(old(State()), lines, cashier, now)
    {
      var sale := |sales|;
      sales := sales + [Sale(now, None, Some(cashier))];
      ghost var started := State();
      var total := 0;
      var i := 0;
      while i < |lines|
        invariant 0 <= i <= |lines|
        invariant sales == started.sales
        invariant CommitFrom(State(), sale, lines, i, total) == CommitFrom(started, sale, lines, 0, 0)
        decreases |lines| - i
      {
        var line := lines[i];
        total := total + line.subtotal;
        SaveDetail(Row(sale, line));
        var item := line.snapshot;
        item := item.(quantity := item.quantity - line.quantity);
        if item.quantity < 0 {
          return InsufficientStock("Insufficient stock for item " + item.name);
        }
        items := items[line.item := item];
        i := i + 1;
      }
      sales := sales[sale := Sale(now, Some(total), Some(cashier))];
      outcome := Created(sale);
    }

    /** `SaleListCreateView.post`. */
    method Post(req: SaleRequest, user: Option<UserId>, users: set<UserId>, now: int) returns (response: Response)
      modifies this
      ensures Effect(State(), response) == PostSpec(old(State()), req, user, users, now)
    {
      if user.None? {
        return NotAuthenticated;
      }
      var validated := ValidateSale(req, items, users);
      if validated.Err? {
        return BadRequest(validated.error);
      }
      var outcome := Create(validated.value, user.value, now);
      match outcome
      case Created(sale) => response := SaleCreated(sale);
      case InsufficientStock(message) => response := StockRefused(message);
    }
  }
}
