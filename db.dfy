/**
 * The FastAPI backend's tables (the modules under `backend/app/models`) as an in-memory
 * store: one map per table, keyed by the row's id.  A `uuid4()` is a fresh
 * number drawn from `nextId`; a user is identified by its id.  The files the
 * upload route writes under `uploads/` are kept as the rows `csv.reader`
 * reads back from them.
 */
module Db {
  import opened Text

  type Id = nat

  /** `uploads/{portfolio_id}_{uuid4()}{ext}`, the path the upload route writes to. */
  datatype UploadPath = UploadPath(portfolioId: Id, token: Id, ext: string)

  /**
   * A `portfolios` row.  `name` is NOT NULL in the table; it is an `Option`
   * here because an update may set it to null before the commit refuses it.
   */
  datatype Portfolio = Portfolio(
    id: Id,
    userId: Id,
    name: Option<string>,
    description: Option<string>,
    emailFrequency: Option<string>,
    emailInstructions: Option<string>,
    filePath: Option<UploadPath>)

  /**
   * A `portfolio_holdings` row.  Numeric columns hold whatever number the
   * request or the parser supplied; `symbol` is NOT NULL in the table.
   */
  datatype Holding = Holding(
    id: Id,
    portfolioId: Id,
    symbol: Option<string>,
    name: Option<string>,
    quantity: Option<real>,
    price: Option<real>,
    marketValue: Option<real>,
    weight: Option<real>,
    sector: Option<string>,
    validated: Option<bool>,
    validationStatus: Option<string>)

  /** An `email_recaps` row; `sentAt` is the `utcnow()` of its insertion. */
  datatype Recap = Recap(id: Id, portfolioId: Id, subject: string, content: string, sentAt: int)

  /** A route's answer: its JSON body, or an `HTTPException` with status and detail. */
  datatype Response<+T> = Success(value: T) | Failure(status: nat, detail: string)

  /** A field of a partial-update body: left out, or sent with a value (which may be null). */
  datatype Field<+T> = Unset | Set(value: T)

  /** The new value of a column after a partial update that may supply `f`. */
  function Supplied<T>(f: Field<T>, current: T): T {
    if f.Set? then f.value else current
  }

  const PortfolioNotFound := "Portfolio not found"

  /** The body FastAPI sends for an exception no route catches (a failed commit). */
  const InternalServerError := "Internal Server Error"

  /** The NOT NULL constraints of `portfolios`, checked at commit. */
  predicate PortfolioStorable(p: Portfolio) {
    p.name.Some?
  }

  /** The NOT NULL constraints of `portfolio_holdings`, checked at commit. */
  predicate HoldingStorable(h: Holding) {
    h.symbol.Some?
  }

  /** The keys below `n` of `m` whose values satisfy `keep`, in increasing order. */
  function SelectKeys<T>(m: map<Id, T>, keep: T -> bool, n: nat): (r: seq<Id>)
    ensures forall i, j :: 0 <= i < j < |r| ==> r[i] < r[j]
    ensures forall k :: k in r <==> k < n && k in m && keep(m[k])
  {
    if n == 0 then []
    else
      var p := SelectKeys(m, keep, n - 1);
      assert forall i :: 0 <= i < |p| ==> p[i] in p;
      if n - 1 in m && keep(m[n - 1]) then p + [n - 1] else p
  }

  /** The values of `m` at `keys`, in the order of `keys`. */
  function ValuesAt<T>(m: map<Id, T>, keys: seq<Id>): (r: seq<T>)
    requires forall k :: k in keys ==> k in m
    ensures |r| == |keys| && forall i :: 0 <= i < |keys| ==> r[i] == m[keys[i]]
  {
    seq(|keys|, i requires 0 <= i < |keys| => m[keys[i]])
  }

  /** The position of `k` in `ids`. */
  function IndexOf(ids: seq<Id>, k: Id): (i: nat)
    requires k in ids
    ensures i < |ids| && ids[i] == k
  {
    if ids[0] == k then 0 else 1 + IndexOf(ids[1..], k)
  }

  /** The holdings left once the rows of portfolio `pid` are gone. */
  function HoldingsOutside(hs: map<Id, Holding>, pid: Id): map<Id, Holding> {
    map k | k in hs && hs[k].portfolioId != pid :: hs[k]
  }

  /** The recaps left once the rows of portfolio `pid` are gone. */
  function RecapsOutside(rs: map<Id, Recap>, pid: Id): map<Id, Recap> {
    map k | k in rs && rs[k].portfolioId != pid :: rs[k]
  }

  /**
   * Every row is stored under its own id, every id was drawn before, every
   * row satisfies its table's constraints, and every holding and recap
   * belongs to a stored portfolio (the foreign keys).
   */
  ghost predicate Consistent(portfolios: map<Id, Portfolio>, holdings: map<Id, Holding>,
                             recaps: map<Id, Recap>, nextId: Id)
  {
    (forall k :: k in portfolios ==>
      k < nextId && portfolios[k].id == k && PortfolioStorable(portfolios[k])) &&
    (forall k :: k in holdings ==>
      k < nextId && holdings[k].id == k && HoldingStorable(holdings[k])
      && holdings[k].portfolioId in portfolios) &&
    (forall k :: k in recaps ==>
      k < nextId && recaps[k].id == k && recaps[k].portfolioId in portfolios)
  }

  /** Adding a storable holding of a stored portfolio under a fresh id keeps the tables consistent. */
  lemma HoldingAdded(portfolios: map<Id, Portfolio>, holdings: map<Id, Holding>, recaps: map<Id, Recap>,
                     nextId: Id, h: Holding)
    requires Consistent(portfolios, holdings, recaps, nextId)
    requires h.id == nextId && HoldingStorable(h) && h.portfolioId in portfolios
    ensures Consistent(portfolios, holdings[nextId := h], recaps, nextId + 1)
  {
  }

  /**
   * Storing a row in place of a portfolio under the same id, with its
   * constraints met, and drawing more ids keep the tables consistent.
   */
  lemma PortfolioReplaced(portfolios: map<Id, Portfolio>, holdings: map<Id, Holding>, recaps: map<Id, Recap>,
                          nextId: Id, p: Portfolio, later: Id)
    requires Consistent(portfolios, holdings, recaps, nextId)
    requires p.id in portfolios && PortfolioStorable(p) && nextId <= later
    ensures Consistent(portfolios[p.id := p], holdings, recaps, later)
  {
  }

  class Database {
    var portfolios: map<Id, Portfolio>
    var holdings: map<Id, Holding>
    var recaps: map<Id, Recap>
    var files: map<UploadPath, seq<seq<string>>>
    var nextId: Id

    /** The tables are consistent. */
    ghost predicate Valid()
      reads this
    {
      Consistent(portfolios, holdings, recaps, nextId)
    }

    constructor ()
      ensures Valid()
      ensures portfolios == map[] && holdings == map[] && recaps == map[] && files == map[]
    {
      portfolios := map[];
      holdings := map[];
      recaps := map[];
      files := map[];
      nextId := 0;
    }

    /** `db.query(Portfolio).filter(Portfolio.id == pid, Portfolio.user_id == user).first()` finds a row. */
    predicate Owns(user: Id, pid: Id)
      reads this
    {
      pid in portfolios && portfolios[pid].userId == user
    }
  }
}
