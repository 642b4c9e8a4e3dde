/**
 * `backend/app/routers/holdings.py`: the holding routes of one portfolio.
 * Every route first requires the caller to own the portfolio; update and
 * delete then require the holding to belong to it.
 */
module HoldingsRouter {
  import opened Text
  import opened Db

  /** `PortfolioHoldingCreate`: a symbol, and optional columns. */
  datatype HoldingCreate = HoldingCreate(
    symbol: string,
    name: Option<string>,
    quantity: Option<real>,
    price: Option<real>,
    marketValue: Option<real>,
    weight: Option<real>,
    sector: Option<string>)

  /** `PortfolioHoldingUpdate` as received: each field left out or sent (possibly as null). */
  datatype HoldingUpdate = HoldingUpdate(
    symbol: Field<Option<string>>,
    name: Field<Option<string>>,
    quantity: Field<Option<real>>,
    price: Field<Option<real>>,
    marketValue: Field<Option<real>>,
    weight: Field<Option<real>>,
    sector: Field<Option<string>>,
    validated: Field<Option<bool>>,
    validationStatus: Field<Option<string>>)

  const NoChanges := HoldingUpdate(Unset, Unset, Unset, Unset, Unset, Unset, Unset, Unset, Unset)

  const HoldingNotFound := "Holding not found"

  /** One `(field, value)` item of `holding_data.dict(exclude_unset=True)`. */
  datatype Assignment =
    | SymbolTo(symbol: Option<string>)
    | NameTo(name: Option<string>)
    | QuantityTo(quantity: Option<real>)
    | PriceTo(price: Option<real>)
    | MarketValueTo(marketValue: Option<real>)
    | WeightTo(weight: Option<real>)
    | SectorTo(sector: Option<string>)
    | ValidatedTo(validated: Option<bool>)
    | StatusTo(status: Option<string>)

  /** The item of `dict(exclude_unset=True)` for each field: none when it was left out. */
  function SymbolItem(u: HoldingUpdate): seq<Assignment> {
    if u.symbol.Set? then [SymbolTo(u.symbol.value)] else []
  }
  function NameItem(u: HoldingUpdate): seq<Assignment> {
    if u.name.Set? then [NameTo(u.name.value)] else []
  }
  function QuantityItem(u: HoldingUpdate): seq<Assignment> {
    if u.quantity.Set? then [QuantityTo(u.quantity.value)] else []
  }
  function PriceItem(u: HoldingUpdate): seq<Assignment> {
    if u.price.Set? then [PriceTo(u.price.value)] else []
  }
  function MarketValueItem(u: HoldingUpdate): seq<Assignment> {
    if u.marketValue.Set? then [MarketValueTo(u.marketValue.value)] else []
  }
  function WeightItem(u: HoldingUpdate): seq<Assignment> {
    if u.weight.Set? then [WeightTo(u.weight.value)] else []
  }
  function SectorItem(u: HoldingUpdate): seq<Assignment> {
    if u.sector.Set? then [SectorTo(u.sector.value)] else []
  }
  function ValidatedItem(u: HoldingUpdate): seq<Assignment> {
    if u.validated.Set? then [ValidatedTo(u.validated.value)] else []
  }
  function StatusItem(u: HoldingUpdate): seq<Assignment> {
    if u.validationStatus.Set? then [StatusTo(u.validationStatus.value)] else []
  }

  /** The items of `dict(exclude_unset=True)`: the fields that were sent, in declaration order. */
  function UpdateItems(u: HoldingUpdate): seq<Assignment> {
    SymbolItem(u) + (NameItem(u) + (QuantityItem(u) + (PriceItem(u) + (MarketValueItem(u)
    + (WeightItem(u) + (SectorItem(u) + (ValidatedItem(u) + StatusItem(u))))))))
  }

  /** `setattr(holding, field, value)`. */
  function SetAttr(h: Holding, a: Assignment): Holding {
    match a
    case SymbolTo(v) => h.(symbol := v)
    case NameTo(v) => h.(name := v)
    case QuantityTo(v) => h.(quantity := v)
    case PriceTo(v) => h.(price := v)
    case MarketValueTo(v) => h.(marketValue := v)
    case WeightTo(v) => h.(weight := v)
    case SectorTo(v) => h.(sector := v)
    case ValidatedTo(v) => h.(validated := v)
    case StatusTo(v) => h.(validationStatus := v)
  }

  /** The row after the `setattr` loop has run over `items`, first to last. */
  function SetAll(h: Holding, items: seq<Assignment>): Holding
    decreases |items|
  {
    if items == [] then h else SetAll(SetAttr(h, items[0]), items[1..])
  }

  /**
   * The promise of a partial update: the fields that were sent take the sent
   * value, all others (including id and portfolio) keep theirs.
   */
  predicate OnlySuppliedChanged(h: Holding, u: HoldingUpdate, r: Holding) {
    r.id == h.id && r.portfolioId == h.portfolioId
    && r.symbol == Supplied(u.symbol, h.symbol)
    && r.name == Supplied(u.name, h.name)
    && r.quantity == Supplied(u.quantity, h.quantity)
    && r.price == Supplied(u.price, h.price)
    && r.marketValue == Supplied(u.marketValue, h.marketValue)
    && r.weight == Supplied(u.weight, h.weight)
    && r.sector == Supplied(u.sector, h.sector)
    && r.validated == Supplied(u.validated, h.validated)
    && r.validationStatus == Supplied(u.validationStatus, h.validationStatus)
  }

  /** Running the loop over two lists in a row is running it over both. */
  lemma {:induction false} SetAllAppend(h: Holding, xs: seq<Assignment>, ys: seq<Assignment>)
    ensures SetAll(h, xs + ys) == SetAll(SetAll(h, xs), ys)
    decreases |xs|
  {
    if xs != [] {
      assert (xs + ys)[1..] == xs[1..] + ys;
      SetAllAppend(SetAttr(h, xs[0]), xs[1..], ys);
    } else {
      assert xs + ys == ys;
    }
  }

  /** A field that was sent is assigned first; one left out adds no item. */
  lemma SetAllItem(h: Holding, item: seq<Assignment>, rest: seq<Assignment>)
    requires |item| <= 1
    ensures SetAll(h, item + rest) == if item == [] then SetAll(h, rest) else SetAll(SetAttr(h, item[0]), rest)
  {
    if item == [] {
      assert item + rest == rest;
    } else {
      assert (item + rest)[1..] == rest;
    }
  }

  lemma SymbolStep(h: Holding, u: HoldingUpdate, rest: seq<Assignment>)
    ensures SetAll(h, SymbolItem(u) + rest) == SetAll(h.(symbol := Supplied(u.symbol, h.symbol)), rest)
  {
    SetAllItem(h, SymbolItem(u), rest);
  }

  lemma NameStep(h: Holding, u: HoldingUpdate, rest: seq<Assignment>)
    ensures SetAll(h, NameItem(u) + rest) == SetAll(h.(name := Supplied(u.name, h.name)), rest)
  {
    SetAllItem(h, NameItem(u), rest);
  }

  lemma QuantityStep(h: Holding, u: HoldingUpdate, rest: seq<Assignment>)
    ensures SetAll(h, QuantityItem(u) + rest) == SetAll(h.(quantity := Supplied(u.quantity, h.quantity)), rest)
  {
    SetAllItem(h, QuantityItem(u), rest);
  }

  lemma PriceStep(h: Holding, u: HoldingUpdate, rest: seq<Assignment>)
    ensures SetAll(h, PriceItem(u) + rest) == SetAll(h.(price := Supplied(u.price, h.price)), rest)
  {
    SetAllItem(h, PriceItem(u), rest);
  }

  lemma MarketValueStep(h: Holding, u: HoldingUpdate, rest: seq<Assignment>)
    ensures SetAll(h, MarketValueItem(u) + rest) == SetAll(h.(marketValue := Supplied(u.marketValue, h.marketValue)), rest)
  {
    SetAllItem(h, MarketValueItem(u), rest);
  }

  lemma WeightStep(h: Holding, u: HoldingUpdate, rest: seq<Assignment>)
    ensures SetAll(h, WeightItem(u) + rest) == SetAll(h.(weight := Supplied(u.weight, h.weight)), rest)
  {
    SetAllItem(h, WeightItem(u), rest);
  }

  lemma SectorStep(h: Holding, u: HoldingUpdate, rest: seq<Assignment>)
    ensures SetAll(h, SectorItem(u) + rest) == SetAll(h.(sector := Supplied(u.sector, h.sector)), rest)
  {
    SetAllItem(h, SectorItem(u), rest);
  }

  lemma ValidatedStep(h: Holding, u: HoldingUpdate, rest: seq<Assignment>)
    ensures SetAll(h, ValidatedItem(u) + rest) == SetAll(h.(validated := Supplied(u.validated, h.validated)), rest)
  {
    SetAllItem(h, ValidatedItem(u), rest);
  }

  lemma StatusStep(h: Holding, u: HoldingUpdate, rest: seq<Assignment>)
    ensures SetAll(h, StatusItem(u) + rest) == SetAll(h.(validationStatus := Supplied(u.validationStatus, h.validationStatus)), rest)
  {
    SetAllItem(h, StatusItem(u), rest);
  }

  /** The `setattr` loop over the sent fields changes exactly those fields. */
  lemma SetAllChangesOnlySupplied(h: Holding, u: HoldingUpdate)
    ensures OnlySuppliedChanged(h, u, SetAll(h, UpdateItems(u)))
  {
    var r9 := StatusItem(u);
    var r8 := ValidatedItem(u) + r9;
    var r7 := SectorItem(u) + r8;
    var r6 := WeightItem(u) + r7;
    var r5 := MarketValueItem(u) + r6;
    var r4 := PriceItem(u) + r5;
    var r3 := QuantityItem(u) + r4;
    var r2 := NameItem(u) + r3;
    var g1 := h.(symbol := Supplied(u.symbol, h.symbol));
    SymbolStep(h, u, r2);
    var g2 := g1.(name := Supplied(u.name, h.name));
    NameStep(g1, u, r3);
    var g3 := g2.(quantity := Supplied(u.quantity, h.quantity));
    QuantityStep(g2, u, r4);
    var g4 := g3.(price := Supplied(u.price, h.price));
    PriceStep(g3, u, r5);
    var g5 := g4.(marketValue := Supplied(u.marketValue, h.marketValue));
    MarketValueStep(g4, u, r6);
    var g6 := g5.(weight := Supplied(u.weight, h.weight));
    WeightStep(g5, u, r7);
    var g7 := g6.(sector := Supplied(u.sector, h.sector));
    SectorStep(g6, u, r8);
    var g8 := g7.(validated := Supplied(u.validated, h.validated));
    ValidatedStep(g7, u, r9);
    var g9 := g8.(validationStatus := Supplied(u.validationStatus, h.validationStatus));
    StatusStep(g8, u, []);
    assert StatusItem(u) + [] == r9;
    assert SetAll(h, UpdateItems(u)) == SetAll(g9, []);
  }

  /** An update whose body sends no field leaves the holding as it was. */
  lemma EmptyUpdateKeepsRow(h: Holding)
    ensures SetAll(h, UpdateItems(NoChanges)) == h
  {
    SetAllChangesOnlySupplied(h, NoChanges);
  }

  /** Sending the same update twice gives the same row as sending it once. */
  lemma UpdateIdempotent(h: Holding, u: HoldingUpdate)
    ensures SetAll(SetAll(h, UpdateItems(u)), UpdateItems(u)) == SetAll(h, UpdateItems(u))
  {
    var once := SetAll(h, UpdateItems(u));
    SetAllChangesOnlySupplied(h, u);
    SetAllChangesOnlySupplied(once, u);
  }

  lemma SetAllStep(h: Holding, items: seq<Assignment>, i: nat)
    requires i < |items|
    ensures SetAll(h, items[i..]) == SetAll(SetAttr(h, items[i]), items[i + 1..])
  {
    assert items[i..][1..] == items[i + 1..];
  }

  /** The `setattr` loop of `update_holding`. */
  method ApplyUpdate(row: Holding, u: HoldingUpdate) returns (r: Holding)
    ensures r == SetAll(row, UpdateItems(u))
    ensures OnlySuppliedChanged(row, u, r)
  {
    var items := UpdateItems(u);
    r := row;
    for i := 0 to |items|
      invariant SetAll(r, items[i..]) == SetAll(row, items)
    {
      SetAllStep(r, items, i);
      r := SetAttr(r, items[i]);
    }
    assert items[|items|..] == [];
    SetAllChangesOnlySupplied(row, u);
  }

  /** The holdings whose `portfolio_id` is `pid`, each once. */
  function HoldingsOf(db: Database, pid: Id): (r: seq<Holding>)
    reads db
    requires db.Valid()
    ensures forall h :: h in r <==> h in db.holdings.Values && h.portfolioId == pid
    ensures forall i, j :: 0 <= i < j < |r| ==> r[i].id < r[j].id
  {
    var ids := SelectKeys(db.holdings, (h: Holding) => h.portfolioId == pid, db.nextId);
    var r := ValuesAt(db.holdings, ids);
    assert forall h :: h in db.holdings.Values && h.portfolioId == pid ==> h == r[IndexOf(ids, h.id)];
    r
  }

  /** `get_portfolio_holdings`: 404 unless the caller owns the portfolio, else its holdings. */
  function ListHoldings(db: Database, user: Id, pid: Id): (r: Response<seq<Holding>>)
    reads db
    requires db.Valid()
    ensures r.Failure? <==> !db.Owns(user, pid)
    ensures r.Failure? ==> r == Failure(404, PortfolioNotFound)
    ensures r.Success? ==> forall h :: h in r.value <==> h in db.holdings.Values && h.portfolioId == pid
  {
    if db.Owns(user, pid) then Success(HoldingsOf(db, pid)) else Failure(404, PortfolioNotFound)
  }

  /** `create_holding`: a new holding of portfolio `pid` with the request's fields. */
  method CreateHolding(db: Database, user: Id, pid: Id, data: HoldingCreate) returns (r: Response<Holding>)
    requires db.Valid()
    modifies db`holdings, db`nextId
    ensures db.Valid()
    ensures !old(db.Owns(user, pid)) ==>
      r == Failure(404, PortfolioNotFound) && db.holdings == old(db.holdings) && db.nextId == old(db.nextId)
    ensures old(db.Owns(user, pid)) ==>
      r.Success? && r.value.id !in old(db.holdings)
      && r.value == Holding(r.value.id, pid, Some(data.symbol), data.name, data.quantity, data.price,
                            data.marketValue, data.weight, data.sector, Some(false), None)
      && db.holdings == old(db.holdings)[r.value.id := r.value]
  {
    if !db.Owns(user, pid) {
      return Failure(404, PortfolioNotFound);
    }
    var h := Holding(db.nextId, pid, Some(data.symbol), data.name, data.quantity, data.price,
                     data.marketValue, data.weight, data.sector, Some(false), None);
    db.holdings := db.holdings[h.id := h];
    db.nextId := db.nextId + 1;
    r := Success(h);
  }

  /** The holding `hid` exists and belongs to portfolio `pid`. */
  predicate BelongsTo(holdings: map<Id, Holding>, hid: Id, pid: Id) {
    hid in holdings && holdings[hid].portfolioId == pid
  }

  /**
   * `update_holding`: 404 unless the caller owns the portfolio and the
   * holding belongs to it; otherwise the sent fields are assigned.  A null
   * symbol breaks the NOT NULL constraint at commit: 500, nothing stored.
   */
  method UpdateHolding(db: Database, user: Id, pid: Id, hid: Id, u: HoldingUpdate) returns (r: Response<Holding>)
    requires db.Valid()
    modifies db`holdings
    ensures db.Valid()
    ensures !old(db.Owns(user, pid)) ==> r == Failure(404, PortfolioNotFound)
    ensures old(db.Owns(user, pid)) && !BelongsTo(old(db.holdings), hid, pid) ==>
      r == Failure(404, HoldingNotFound)
    ensures old(db.Owns(user, pid)) && BelongsTo(old(db.holdings), hid, pid) ==>
      (r.Success? <==> u.symbol != Set(None)) &&
      (r.Failure? ==> r == Failure(500, InternalServerError))
    ensures r.Success? ==> OnlySuppliedChanged(old(db.holdings[hid]), u, r.value)
    ensures r.Success? ==> db.holdings == old(db.holdings)[hid := r.value]
    ensures r.Failure? ==> db.holdings == old(db.holdings)
  {
    if !db.Owns(user, pid) {
      return Failure(404, PortfolioNotFound);
    }
    if !BelongsTo(db.holdings, hid, pid) {
      return Failure(404, HoldingNotFound);
    }
    var row := ApplyUpdate(db.holdings[hid], u);
    if !HoldingStorable(row) {
      return Failure(500, InternalServerError);
    }
    db.holdings := db.holdings[hid := row];
    r := Success(row);
  }

  /** `delete_holding`: the same two 404s; otherwise exactly that holding goes. */
  method DeleteHolding(db: Database, user: Id, pid: Id, hid: Id) returns (r: Response<string>)
    requires db.Valid()
    modifies db`holdings
    ensures db.Valid()
    ensures !old(db.Owns(user, pid)) ==> r == Failure(404, PortfolioNotFound)
    ensures old(db.Owns(user, pid)) && !BelongsTo(old(db.holdings), hid, pid) ==>
      r == Failure(404, HoldingNotFound)
    ensures r.Failure? ==> db.holdings == old(db.holdings)
    ensures r.Success? <==> old(db.Owns(user, pid)) && BelongsTo(old(db.holdings), hid, pid)
    ensures r.Success? ==>
      r.value == "Holding deleted successfully" && db.holdings == old(db.holdings) - {hid}
  {
    if !db.Owns(user, pid) {
      return Failure(404, PortfolioNotFound);
    }
    if !BelongsTo(db.holdings, hid, pid) {
      return Failure(404, HoldingNotFound);
    }
    db.holdings := db.holdings - {hid};
    r := Success("Holding deleted successfully");
  }
}
