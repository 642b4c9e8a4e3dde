/**
 * `backend/app/routers/portfolios.py`: the portfolio routes, every one of
 * them restricted to the caller's own portfolios.
 */
module PortfoliosRouter {
  import opened Text
  import opened Db

  /** `PortfolioCreate`: a name, and three optional fields. */
  datatype PortfolioCreate = PortfolioCreate(
    name: string,
    description: Option<string>,
    emailFrequency: Option<string>,
    emailInstructions: Option<string>)

  /** `PortfolioUpdate` as received: each field left out or sent (possibly as null). */
  datatype PortfolioUpdate = PortfolioUpdate(
    name: Field<Option<string>>,
    description: Field<Option<string>>,
    emailFrequency: Field<Option<string>>,
    emailInstructions: Field<Option<string>>)

  const NoChanges := PortfolioUpdate(Unset, Unset, Unset, Unset)

  /** The attributes `PortfolioUpdate` can name. */
  datatype Attr = NameAttr | DescriptionAttr | FrequencyAttr | InstructionsAttr

  /** One `(field, value)` item of `portfolio_data.dict(exclude_unset=True)`. */
  datatype Assignment = Assignment(attr: Attr, value: Option<string>)

  /** The items of `dict(exclude_unset=True)`: the fields that were sent, in declaration order. */
  function UpdateItems(u: PortfolioUpdate): seq<Assignment> {
    (if u.name.Set? then [Assignment(NameAttr, u.name.value)] else [])
    + (if u.description.Set? then [Assignment(DescriptionAttr, u.description.value)] else [])
    + (if u.emailFrequency.Set? then [Assignment(FrequencyAttr, u.emailFrequency.value)] else [])
    + (if u.emailInstructions.Set? then [Assignment(InstructionsAttr, u.emailInstructions.value)] else [])
  }

  /** `setattr(portfolio, field, value)`. */
  function SetAttr(p: Portfolio, a: Assignment): Portfolio {
    match a.attr
    case NameAttr => p.(name := a.value)
    case DescriptionAttr => p.(description := a.value)
    case FrequencyAttr => p.(emailFrequency := a.value)
    case InstructionsAttr => p.(emailInstructions := a.value)
  }

  /** The row after the `setattr` loop has run over `items`. */
  function SetAll(p: Portfolio, items: seq<Assignment>): Portfolio {
    if items == [] then p else SetAttr(SetAll(p, items[..|items| - 1]), items[|items| - 1])
  }

  /**
   * The promise of a partial update: the fields that were sent take the sent
   * value, all others (including id, owner and file path) keep theirs.
   */
  predicate OnlySuppliedChanged(p: Portfolio, u: PortfolioUpdate, r: Portfolio) {
    r.id == p.id && r.userId == p.userId && r.filePath == p.filePath
    && r.name == Supplied(u.name, p.name)
    && r.description == Supplied(u.description, p.description)
    && r.emailFrequency == Supplied(u.emailFrequency, p.emailFrequency)
    && r.emailInstructions == Supplied(u.emailInstructions, p.emailInstructions)
  }

  lemma SetAllSnoc(p: Portfolio, items: seq<Assignment>, a: Assignment)
    ensures SetAll(p, items + [a]) == SetAttr(SetAll(p, items), a)
  {
    assert (items + [a])[..|items|] == items;
  }

  /** The `setattr` loop over the sent fields changes exactly those fields. */
  lemma SetAllChangesOnlySupplied(p: Portfolio, u: PortfolioUpdate)
    ensures OnlySuppliedChanged(p, u, SetAll(p, UpdateItems(u)))
  {
    var a := if u.name.Set? then [Assignment(NameAttr, u.name.value)] else [];
    var b := if u.description.Set? then [Assignment(DescriptionAttr, u.description.value)] else [];
    var c := if u.emailFrequency.Set? then [Assignment(FrequencyAttr, u.emailFrequency.value)] else [];
    var d := if u.emailInstructions.Set? then [Assignment(InstructionsAttr, u.emailInstructions.value)] else [];
    assert UpdateItems(u) == a + b + c + d;
    assert [] + a == a;
    SetAllMaybe(p, [], a);
    var pa := SetAll(p, a);
    assert pa == p.(name := Supplied(u.name, p.name));
    SetAllMaybe(p, a, b);
    var pb := SetAll(p, a + b);
    assert pb == pa.(description := Supplied(u.description, p.description));
    SetAllMaybe(p, a + b, c);
    var pc := SetAll(p, a + b + c);
    assert pc == pb.(emailFrequency := Supplied(u.emailFrequency, p.emailFrequency));
    SetAllMaybe(p, a + b + c, d);
    assert SetAll(p, a + b + c + d) == pc.(emailInstructions := Supplied(u.emailInstructions, p.emailInstructions));
  }

  /** An item for a field that was sent is assigned last; one left out adds nothing. */
  lemma SetAllMaybe(p: Portfolio, items: seq<Assignment>, item: seq<Assignment>)
    requires |item| <= 1
    ensures SetAll(p, items + item) == if item == [] then SetAll(p, items) else SetAttr(SetAll(p, items), item[0])
  {
    if item == [] {
      assert items + item == items;
    } else {
      SetAllSnoc(p, items, item[0]);
      assert item == [item[0]];
    }
  }

  /** A row is determined by the row it came from and the update. */
  lemma OnlySuppliedChangedUnique(p: Portfolio, u: PortfolioUpdate, r1: Portfolio, r2: Portfolio)
    requires OnlySuppliedChanged(p, u, r1) && OnlySuppliedChanged(p, u, r2)
    ensures r1 == r2
  {
  }

  /** An update whose body sends no field leaves the row as it was. */
  lemma EmptyUpdateKeepsRow(p: Portfolio)
    ensures SetAll(p, UpdateItems(NoChanges)) == p
  {
    SetAllChangesOnlySupplied(p, NoChanges);
  }

  /** Sending the same update twice gives the same row as sending it once. */
  lemma UpdateIdempotent(p: Portfolio, u: PortfolioUpdate)
    ensures SetAll(SetAll(p, UpdateItems(u)), UpdateItems(u)) == SetAll(p, UpdateItems(u))
  {
    var once := SetAll(p, UpdateItems(u));
    SetAllChangesOnlySupplied(p, u);
    SetAllChangesOnlySupplied(once, u);
    OnlySuppliedChangedUnique(p, u, SetAll(once, UpdateItems(u)), once);
  }

  /** The `setattr` loop of `update_portfolio`. */
  method ApplyUpdate(row: Portfolio, u: PortfolioUpdate) returns (r: Portfolio)
    ensures r == SetAll(row, UpdateItems(u))
    ensures OnlySuppliedChanged(row, u, r)
  {
    var items := UpdateItems(u);
    r := row;
    for i := 0 to |items|
      invariant r == SetAll(row, items[..i])
    {
      SetAllSnoc(row, items[..i], items[i]);
      assert items[..i + 1] == items[..i] + [items[i]];
      r := SetAttr(r, items[i]);
    }
    assert items[..|items|] == items;
    SetAllChangesOnlySupplied(row, u);
  }

  /** `get_portfolios`: the caller's portfolios, each once. */
  function ListPortfolios(db: Database, user: Id): (r: seq<Portfolio>)
    reads db
    requires db.Valid()
    ensures forall p :: p in r <==> p in db.portfolios.Values && p.userId == user
    ensures forall i, j :: 0 <= i < j < |r| ==> r[i].id < r[j].id
  {
    var ids := SelectKeys(db.portfolios, (p: Portfolio) => p.userId == user, db.nextId);
    var r := ValuesAt(db.portfolios, ids);
    assert forall p :: p in db.portfolios.Values && p.userId == user ==> p == r[IndexOf(ids, p.id)];
    r
  }

  /** `get_portfolio`: the portfolio if the caller owns it, else 404. */
  function GetPortfolio(db: Database, user: Id, pid: Id): (r: Response<Portfolio>)
    reads db
    ensures r.Success? <==> db.Owns(user, pid)
    ensures r.Success? ==> r.value == db.portfolios[pid] && r.value.userId == user
    ensures r.Failure? ==> r == Failure(404, PortfolioNotFound)
  {
    if db.Owns(user, pid) then Success(db.portfolios[pid]) else Failure(404, PortfolioNotFound)
  }

  /** `create_portfolio`: a new row owned by the caller, with the request's fields. */
  method CreatePortfolio(db: Database, user: Id, data: PortfolioCreate) returns (p: Portfolio)
    requires db.Valid()
    modifies db`portfolios, db`nextId
    ensures db.Valid()
    ensures p.id !in old(db.portfolios) && db.nextId == old(db.nextId) + 1
    ensures p == Portfolio(p.id, user, Some(data.name), data.description,
                           data.emailFrequency, data.emailInstructions, None)
    ensures db.portfolios == old(db.portfolios)[p.id := p]
  {
    p := Portfolio(db.nextId, user, Some(data.name), data.description,
                   data.emailFrequency, data.emailInstructions, None);
    db.portfolios := db.portfolios[p.id := p];
    db.nextId := db.nextId + 1;
  }

  /**
   * `update_portfolio`: 404 unless the caller owns the portfolio; otherwise
   * the sent fields are assigned and committed.  A null name breaks the
   * NOT NULL constraint at commit, which answers 500 and stores nothing.
   */
  method UpdatePortfolio(db: Database, user: Id, pid: Id, u: PortfolioUpdate) returns (r: Response<Portfolio>)
    requires db.Valid()
    modifies db`portfolios
    ensures db.Valid()
    ensures !old(db.Owns(user, pid)) ==> r == Failure(404, PortfolioNotFound)
    ensures old(db.Owns(user, pid)) ==>
      (r.Success? <==> u.name != Set(None)) &&
      (r.Failure? ==> r == Failure(500, InternalServerError))
    ensures r.Success? ==> OnlySuppliedChanged(old(db.portfolios[pid]), u, r.value)
    ensures r.Success? ==> db.portfolios == old(db.portfolios)[pid := r.value]
    ensures r.Failure? ==> db.portfolios == old(db.portfolios)
  {
    if !db.Owns(user, pid) {
      return Failure(404, PortfolioNotFound);
    }
    var row := ApplyUpdate(db.portfolios[pid], u);
    if !PortfolioStorable(row) {
      return Failure(500, InternalServerError);
    }
    db.portfolios := db.portfolios[pid := row];
    r := Success(row);
  }

  /**
   * `delete_portfolio`: 404 unless the caller owns the portfolio; otherwise
   * the portfolio goes, and with it (`cascade="all, delete-orphan"`) its
   * holdings and recaps, and nothing else.
   */
  method DeletePortfolio(db: Database, user: Id, pid: Id) returns (r: Response<string>)
    requires db.Valid()
    modifies db`portfolios, db`holdings, db`recaps
    ensures db.Valid()
    ensures !old(db.Owns(user, pid)) ==>
      r == Failure(404, PortfolioNotFound) && db.portfolios == old(db.portfolios)
      && db.holdings == old(db.holdings) && db.recaps == old(db.recaps)
    ensures old(db.Owns(user, pid)) ==>
      r == Success("Portfolio deleted successfully")
      && db.portfolios == old(db.portfolios) - {pid}
      && db.holdings == HoldingsOutside(old(db.holdings), pid)
      && db.recaps == RecapsOutside(old(db.recaps), pid)
  {
    if !db.Owns(user, pid) {
      return Failure(404, PortfolioNotFound);
    }
    db.portfolios := db.portfolios - {pid};
    db.holdings := HoldingsOutside(db.holdings, pid);
    db.recaps := RecapsOutside(db.recaps, pid);
    r := Success("Portfolio deleted successfully");
  }
}
