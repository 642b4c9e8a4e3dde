/**
 * The `process-portfolio-file` function
 * (`supabase/functions/process-portfolio-file/index.ts`): it downloads the
 * stored file, reads its header line and data lines, turns each usable line
 * into a holding, checks every symbol against a fixed security table, and
 * replaces the portfolio's holdings with the result.
 *
 * The download, `parseFloat` and the two table calls are inputs: the text
 * or error the download yields, a `parse` function (`None` for NaN), and
 * whether the delete and the insert fail.
 */
module ProcessPortfolioFile {
  import opened Text

  // ---------------------------------------------------------------------
  // Security table

  datatype Security = Security(name: string, sector: string)

  /** `SECURITY_MASTER`: ten known symbols. */
  const SecurityMaster: map<string, Security> := map[
    "AAPL" := Security("Apple Inc.", "Technology"),
    "GOOGL" := Security("Alphabet Inc.", "Technology"),
    "MSFT" := Security("Microsoft Corporation", "Technology"),
    "AMZN" := Security("Amazon.com Inc.", "Consumer Discretionary"),
    "TSLA" := Security("Tesla Inc.", "Consumer Discretionary"),
    "NVDA" := Security("NVIDIA Corporation", "Technology"),
    "JPM" := Security("JPMorgan Chase & Co.", "Financials"),
    "JNJ" := Security("Johnson & Johnson", "Healthcare"),
    "V" := Security("Visa Inc.", "Financials"),
    "PG" := Security("Procter & Gamble Co.", "Consumer Staples")]

  /** `SECURITY_MASTER[symbol]`, `undefined` for an unknown symbol. */
  function Lookup(symbol: string): Option<Security> {
    if symbol in SecurityMaster then Some(SecurityMaster[symbol]) else None
  }

  // ---------------------------------------------------------------------
  // Header line and columns

  /** The non-blank lines of the file, in order. */
  function FileLines(text: string): seq<string> {
    NonBlank(Split(text, '\n'))
  }

  /** `line.split(',').map(cell => cell.trim())`. */
  function Cells(line: string): (r: seq<string>)
    ensures |r| == |Split(line, ',')|
    ensures forall k :: 0 <= k < |r| ==> r[k] == Trim(Split(line, ',')[k], JavaScript)
  {
    var parts := Split(line, ',');
    seq(|parts|, k requires 0 <= k < |parts| => Trim(parts[k], JavaScript))
  }

  /** `lines[0].split(',').map(h => h.trim().toLowerCase())`. */
  function Headers(first: string): (r: seq<string>)
    ensures |r| == |Split(first, ',')|
    ensures forall k :: 0 <= k < |r| ==> r[k] == Lower(Trim(Split(first, ',')[k], JavaScript))
  {
    var cells := Cells(first);
    seq(|cells|, k requires 0 <= k < |cells| => Lower(cells[k]))
  }

  const SymbolKeys: seq<string> := ["symbol", "ticker"]
  const NameKeys: seq<string> := ["name", "security"]
  const QuantityKeys: seq<string> := ["quantity", "shares"]
  const PriceKeys: seq<string> := ["price", "value"]
  const WeightKeys: seq<string> := ["weight", "allocation", "%"]

  /** The column indices; `None` stands for `findIndex`'s -1. */
  datatype Columns = Columns(symbol: nat, name: Option<nat>, quantity: Option<nat>, price: Option<nat>,
                             weight: Option<nat>)

  const NoSymbolColumn := "Could not find symbol/ticker column in the uploaded file"

  /**
   * The `findIndex` searches: each column is the first header holding one
   * of its keywords.  Without a symbol column the request fails.
   */
  function FindColumns(headers: seq<string>): (r: Result<Columns>)
    ensures r.Err? <==> forall j :: 0 <= j < |headers| ==> !MatchesAny(headers[j], SymbolKeys)
    ensures r.Err? ==> r.error == NoSymbolColumn
    ensures r.Ok? ==> (Some(r.value.symbol) == FirstMatch(headers, SymbolKeys)
      && r.value.name == FirstMatch(headers, NameKeys)
      && r.value.quantity == FirstMatch(headers, QuantityKeys)
      && r.value.price == FirstMatch(headers, PriceKeys)
      && r.value.weight == FirstMatch(headers, WeightKeys))
    ensures r.Ok? ==> (r.value.symbol < |headers|
      && (r.value.name.Some? ==> r.value.name.value < |headers|)
      && (r.value.quantity.Some? ==> r.value.quantity.value < |headers|)
      && (r.value.price.Some? ==> r.value.price.value < |headers|)
      && (r.value.weight.Some? ==> r.value.weight.value < |headers|))
  {
    match FirstMatch(headers, SymbolKeys)
    case None => Err(NoSymbolColumn)
    case Some(s) =>
      Ok(Columns(s, FirstMatch(headers, NameKeys), FirstMatch(headers, QuantityKeys),
                 FirstMatch(headers, PriceKeys), FirstMatch(headers, WeightKeys)))
  }

  // ---------------------------------------------------------------------
  // Rows

  /** A parsed holding, before validation. */
  datatype ParsedHolding = ParsedHolding(
    symbol: string,
    name: Option<string>,
    quantity: Option<real>,
    price: Option<real>,
    weight: Option<real>,
    marketValue: Option<real>,
    sector: Option<string>)

  /** `parseFloat(cell) || undefined`: NaN and zero both become `undefined`. */
  function NumberOrUndefined(cell: string, parse: string -> Option<real>): (r: Option<real>)
    ensures r.Some? <==> parse(cell).Some? && parse(cell).value != 0.0
    ensures r.Some? ==> r == parse(cell)
  {
    match parse(cell)
    case None => None
    case Some(v) => if v == 0.0 then None else Some(v)
  }

  /** An optional numeric column of a row. */
  function Amount(cells: seq<string>, col: Option<nat>, parse: string -> Option<real>): Option<real> {
    if col.Some? && col.value < |cells| then NumberOrUndefined(cells[col.value], parse) else None
  }

  /**
   * The holding of a kept row: the symbol cell upper-cased, the name
   * column's cell or else the table's name, the table's sector, and the
   * market value when quantity and price are both set.
   */
  function Holding(cells: seq<string>, cols: Columns, parse: string -> Option<real>): ParsedHolding
    requires cols.symbol < |cells|
  {
    var symbol := Upper(cells[cols.symbol]);
    var info := Lookup(symbol);
    var quantity := Amount(cells, cols.quantity, parse);
    var price := Amount(cells, cols.price, parse);
    ParsedHolding(
      symbol,
      if cols.name.Some? && cols.name.value < |cells| then Some(cells[cols.name.value])
      else if info.Some? then Some(info.value.name) else None,
      quantity,
      price,
      Amount(cells, cols.weight, parse),
      if quantity.Some? && price.Some? then Some(quantity.value * price.value) else None,
      if info.Some? then Some(info.value.sector) else None)
  }

  /** One data line: skipped when it has fewer cells than there are headers or an empty symbol cell. */
  function ParseLine(line: string, width: nat, cols: Columns, parse: string -> Option<real>): Option<ParsedHolding> {
    var cells := Cells(line);
    if |cells| < width || cols.symbol >= |cells| || cells[cols.symbol] == "" then None
    else Some(Holding(cells, cols, parse))
  }

  /** `ParseLine` with the header width, the columns and `parseFloat` fixed. */
  function LineStep(width: nat, cols: Columns, parse: string -> Option<real>): string -> Option<ParsedHolding> {
    line => ParseLine(line, width, cols, parse)
  }

  /** The holdings of data lines `1 .. n-1`, in file order. */
  function ParseLines(lines: seq<string>, n: nat, step: string -> Option<ParsedHolding>): seq<ParsedHolding>
    requires n <= |lines|
  {
    if n <= 1 then []
    else
      var done := ParseLines(lines, n - 1, step);
      match step(lines[n - 1])
      case None => done
      case Some(h) => done + [h]
  }

  /** The indices of the data lines among `1 .. n-1` that give a holding. */
  function KeptLines(lines: seq<string>, n: nat, step: string -> Option<ParsedHolding>): (r: seq<nat>)
    requires n <= |lines|
    ensures forall k :: 0 <= k < |r| ==> 1 <= r[k] < n
    ensures forall k, l :: 0 <= k < l < |r| ==> r[k] < r[l]
    ensures forall j :: 1 <= j < n ==> (j in r <==> step(lines[j]).Some?)
  {
    if n <= 1 then []
    else
      var done := KeptLines(lines, n - 1, step);
      if step(lines[n - 1]).Some? then done + [n - 1] else done
  }

  /**
   * The holdings come from the usable data lines, one each, in file order;
   * so there are at most as many as there are data lines.
   */
  lemma {:induction false} ParsedInFileOrder(lines: seq<string>, n: nat, step: string -> Option<ParsedHolding>)
    requires n <= |lines|
    ensures var hs := ParseLines(lines, n, step);
      var kept := KeptLines(lines, n, step);
      |hs| == |kept| && forall k :: 0 <= k < |hs| ==> Some(hs[k]) == step(lines[kept[k]])
    ensures n >= 1 ==> |ParseLines(lines, n, step)| <= n - 1
  {
    if n > 1 {
      ParsedInFileOrder(lines, n - 1, step);
    }
  }

  /** A line gives a holding exactly when it is wide enough and its symbol cell is not empty. */
  lemma KeptLineShape(line: string, width: nat, cols: Columns, parse: string -> Option<real>)
    requires cols.symbol < width
    ensures var cells := Cells(line);
      (ParseLine(line, width, cols, parse).Some? <==> |cells| >= width && cells[cols.symbol] != "")
      && (ParseLine(line, width, cols, parse).Some? ==>
            ParseLine(line, width, cols, parse).value == Holding(cells, cols, parse))
  {
  }

  /**
   * A holding's symbol is the symbol cell upper-cased, so upper-case and
   * not empty; its sector is the table's, known exactly for the table's
   * symbols; its name is the name cell when there is a name column and
   * the table's name otherwise; its market value is quantity times price.
   */
  lemma HoldingShape(cells: seq<string>, cols: Columns, parse: string -> Option<real>)
    requires cols.symbol < |cells| && cells[cols.symbol] != ""
    ensures var h := Holding(cells, cols, parse);
      h.symbol == Upper(cells[cols.symbol]) && h.symbol != "" && IsUpper(h.symbol)
      && (h.sector.Some? <==> h.symbol in SecurityMaster)
      && (h.sector.Some? ==> h.sector.value == SecurityMaster[h.symbol].sector)
      && (cols.name.Some? && cols.name.value < |cells| ==> h.name == Some(cells[cols.name.value]))
      && (cols.name.None? ==>
            h.name == if h.symbol in SecurityMaster then Some(SecurityMaster[h.symbol].name) else None)
      && (h.marketValue.Some? <==> h.quantity.Some? && h.price.Some?)
      && (h.marketValue.Some? ==> h.marketValue.value == h.quantity.value * h.price.value)
  {
    UpperIsUpper(cells[cols.symbol]);
  }

  /**
   * The row loop: each data line goes through `ParseLine` (as `step`), and
   * the holdings of the usable ones are pushed in order.
   */
  method ParseHoldings(lines: seq<string>, width: nat, cols: Columns, parse: string -> Option<real>)
    returns (holdings: seq<ParsedHolding>)
    ensures holdings == ParseLines(lines, |lines|, LineStep(width, cols, parse))
    ensures |lines| >= 1 ==> |holdings| <= |lines| - 1
  {
    var step := LineStep(width, cols, parse);
    holdings := [];
    if |lines| == 0 {
      return;
    }
    for i := 1 to |lines|
      invariant holdings == ParseLines(lines, i, step)
    {
      var h := step(lines[i]);
      if h.Some? {
        holdings := holdings + [h.value];
      }
    }
    ParsedInFileOrder(lines, |lines|, step);
  }

  // ---------------------------------------------------------------------
  // Validation and the table

  /** A row of `holdingsToInsert`. */
  datatype InsertRow = InsertRow(
    portfolioId: string,
    symbol: string,
    name: Option<string>,
    quantity: Option<real>,
    price: Option<real>,
    marketValue: Option<real>,
    weight: Option<real>,
    sector: Option<string>,
    validated: bool,
    validationStatus: string)

  const ValidStatus := "Valid"
  const UnknownStatus := "Unknown security - not found in master database"

  /** The validated row of a parsed holding. */
  function ToInsert(portfolioId: string, h: ParsedHolding): (r: InsertRow)
    ensures r.validated <==> h.symbol in SecurityMaster
    ensures r.validationStatus == (if h.symbol in SecurityMaster then ValidStatus else UnknownStatus)
    ensures r.portfolioId == portfolioId && r.symbol == h.symbol
  {
    var known := h.symbol in SecurityMaster;
    InsertRow(portfolioId, h.symbol, h.name, h.quantity, h.price, h.marketValue, h.weight, h.sector,
              known, if known then ValidStatus else UnknownStatus)
  }

  function ToInsertAll(portfolioId: string, hs: seq<ParsedHolding>): (r: seq<InsertRow>)
    ensures |r| == |hs| && forall k :: 0 <= k < |hs| ==> r[k] == ToInsert(portfolioId, hs[k])
  {
    seq(|hs|, k requires 0 <= k < |hs| => ToInsert(portfolioId, hs[k]))
  }

  /** `holdingsToInsert.filter(h => h.validated).length`. */
  function ValidCount(rows: seq<InsertRow>): (n: nat)
    ensures n <= |rows|
  {
    if rows == [] then 0
    else ValidCount(rows[..|rows| - 1]) + (if rows[|rows| - 1].validated then 1 else 0)
  }

  /** The number of rows that are not validated (an independent count). */
  function UnvalidatedCount(rows: seq<InsertRow>): nat {
    if rows == [] then 0
    else (if rows[0].validated then 0 else 1) + UnvalidatedCount(rows[1..])
  }

  lemma UnvalidatedCountSnoc(rows: seq<InsertRow>, x: InsertRow)
    ensures UnvalidatedCount(rows + [x]) == UnvalidatedCount(rows) + (if x.validated then 0 else 1)
    decreases |rows|
  {
    if rows != [] {
      assert (rows + [x])[1..] == rows[1..] + [x];
      UnvalidatedCountSnoc(rows[1..], x);
    }
  }

  /** `invalid_securities`, computed as `length - validCount`, counts exactly the rows not validated. */
  lemma {:induction false} CountsAddUp(rows: seq<InsertRow>)
    ensures ValidCount(rows) + UnvalidatedCount(rows) == |rows|
    decreases |rows|
  {
    if rows != [] {
      var init := rows[..|rows| - 1];
      CountsAddUp(init);
      assert rows == init + [rows[|rows| - 1]];
      UnvalidatedCountSnoc(init, rows[|rows| - 1]);
    }
  }

  // ---------------------------------------------------------------------
  // The request

  /** `column_mapping` as the upload page sends it. */
  datatype ColumnMapping = ColumnMapping(nameColumn: Option<nat>, tickerColumn: Option<nat>)

  /** The request body; `portfolio_id` and `file_path` are missing when absent or empty. */
  datatype Request = Request(portfolioId: Option<string>, filePath: Option<string>, columnMapping: Option<ColumnMapping>)

  predicate HasFields(req: Request) {
    req.portfolioId.Some? && req.portfolioId.value != "" && req.filePath.Some? && req.filePath.value != ""
  }

  /** The JSON answer. */
  datatype Reply =
    | Processed(holdingsProcessed: nat, validSecurities: nat, invalidSecurities: nat, message: string)
    | Failed(error: string)
  {
    /** 200 on success; every error is caught and answered with 400. */
    function Status(): nat {
      if Processed? then 200 else 400
    }
  }

  /** The answer together with the `portfolio_holdings` table it leaves behind. */
  datatype Outcome = Outcome(reply: Reply, table: seq<InsertRow>)

  const MissingFields := "Missing portfolio_id or file_path"

  /** The `TypeError` of `lines[0].split` when the file has no non-blank line. */
  const NoLines := "Cannot read properties of undefined (reading 'split')"

  /** The data lines of the file, its header width and its columns. */
  datatype Sheet = Sheet(lines: seq<string>, width: nat, cols: Columns)

  /** The non-blank lines, the headers of the first one and the columns they name. */
  function ReadSheet(text: string): (r: Result<Sheet>)
    ensures r.Err? <==> FileLines(text) == [] || FindColumns(Headers(FileLines(text)[0])).Err?
    ensures r.Err? ==> r.error == (if FileLines(text) == [] then NoLines else NoSymbolColumn)
    ensures r.Ok? ==> (r.value.lines == FileLines(text) && r.value.lines != []
      && r.value.width == |Headers(r.value.lines[0])|
      && r.value.cols == FindColumns(Headers(r.value.lines[0])).value
      && r.value.cols.symbol < r.value.width)
  {
    var lines := FileLines(text);
    if lines == [] then Err(NoLines)
    else
      var headers := Headers(lines[0]);
      match FindColumns(headers)
      case Err(e) => Err(e)
      case Ok(cols) => Ok(Sheet(lines, |headers|, cols))
  }

  /** The validated rows of a sheet, in file order. */
  function SheetRows(pid: string, s: Sheet, parse: string -> Option<real>): seq<InsertRow> {
    ToInsertAll(pid, ParseLines(s.lines, |s.lines|, LineStep(s.width, s.cols, parse)))
  }

  function SuccessMessage(n: nat, valid: nat): string {
    "Successfully processed " + Decimal(n) + " holdings. " + Decimal(valid)
      + " securities validated against master database."
  }

  /** `.delete().eq('portfolio_id', portfolio_id)`. */
  function DeletePortfolio(table: seq<InsertRow>, portfolioId: string): (r: seq<InsertRow>)
    ensures forall x :: x in r <==> x in table && x.portfolioId != portfolioId
  {
    if table == [] then []
    else
      var rest := DeletePortfolio(table[1..], portfolioId);
      assert table == [table[0]] + table[1..];
      if table[0].portfolioId == portfolioId then rest else [table[0]] + rest
  }

  /**
   * Deletes the portfolio's rows (a failing delete is only logged) and
   * inserts the new ones; a failing insert is an error, with the deletion
   * already done.
   */
  function Replace(pid: string, rows: seq<InsertRow>, table: seq<InsertRow>, deleteFails: bool,
                   insertError: Option<string>): Outcome
  {
    var kept := if deleteFails then table else DeletePortfolio(table, pid);
    if insertError.Some? then
      Outcome(Failed("Failed to insert holdings: " + insertError.value), kept)
    else
      var valid := ValidCount(rows);
      Outcome(Processed(|rows|, valid, |rows| - valid, SuccessMessage(|rows|, valid)), kept + rows)
  }

  /**
   * The whole function.  Missing fields, a failed download, a file without
   * lines and a header without symbol column each answer 400 and leave the
   * table alone; otherwise the portfolio's rows are replaced.
   */
  function Process(req: Request, download: Result<string>, parse: string -> Option<real>,
                   table: seq<InsertRow>, deleteFails: bool, insertError: Option<string>): Outcome
  {
    if !HasFields(req) then Outcome(Failed(MissingFields), table)
    else if download.Err? then Outcome(Failed("Failed to download file: " + download.error), table)
    else
      match ReadSheet(download.value)
      case Err(e) => Outcome(Failed(e), table)
      case Ok(s) =>
        var pid := req.portfolioId.value;
        Replace(pid, SheetRows(pid, s, parse), table, deleteFails, insertError)
  }

  /** The error answers: each has status 400, and those before the delete leave the table unchanged. */
  lemma ProcessFailures(req: Request, download: Result<string>, parse: string -> Option<real>,
                        table: seq<InsertRow>, deleteFails: bool, insertError: Option<string>)
    ensures var o := Process(req, download, parse, table, deleteFails, insertError);
      (o.reply.Failed? <==> o.reply.Status() == 400)
      && (!HasFields(req) ==> o == Outcome(Failed(MissingFields), table))
      && (HasFields(req) && download.Err? ==>
            o == Outcome(Failed("Failed to download file: " + download.error), table))
      && (HasFields(req) && download.Ok? && FileLines(download.value) == [] ==>
            o == Outcome(Failed(NoLines), table))
      && (HasFields(req) && download.Ok? && FileLines(download.value) != [] &&
          (forall j :: 0 <= j < |Headers(FileLines(download.value)[0])| ==>
             !MatchesAny(Headers(FileLines(download.value)[0])[j], SymbolKeys)) ==>
            o == Outcome(Failed(NoSymbolColumn), table))
      && (HasFields(req) && download.Ok? && ReadSheet(download.value).Ok? && insertError.Some? ==>
            o.reply == Failed("Failed to insert holdings: " + insertError.value)
            && forall x :: x in o.table ==> x in table)
  {
  }

  /**
   * A successful replace: the answer counts the inserted rows, and the
   * valid and the other ones add up; rows of other portfolios stay, the
   * new rows are all there, and (unless the delete failed) the portfolio
   * has no other rows.
   */
  lemma ReplaceSuccess(pid: string, rows: seq<InsertRow>, table: seq<InsertRow>, deleteFails: bool)
    requires forall x :: x in rows ==> x.portfolioId == pid
    ensures var o := Replace(pid, rows, table, deleteFails, None);
      o.reply.Processed? && o.reply.holdingsProcessed == |rows|
      && o.reply.validSecurities == ValidCount(rows)
      && o.reply.validSecurities + o.reply.invalidSecurities == |rows|
      && o.reply.invalidSecurities == UnvalidatedCount(rows)
      && (forall x :: x in table && x.portfolioId != pid ==> x in o.table)
      && (forall x :: x in rows ==> x in o.table)
      && (!deleteFails ==> forall x :: x in o.table && x.portfolioId == pid ==> x in rows)
  {
    CountsAddUp(rows);
  }

  /**
   * On success: the rows are those of the sheet, at most one per data
   * line, each validated exactly when the security table knows its
   * symbol, and the table is replaced as `ReplaceSuccess` states.
   */
  lemma ProcessSuccess(req: Request, download: Result<string>, parse: string -> Option<real>,
                       table: seq<InsertRow>, deleteFails: bool, insertError: Option<string>)
    requires Process(req, download, parse, table, deleteFails, insertError).reply.Processed?
    ensures HasFields(req) && download.Ok? && ReadSheet(download.value).Ok? && insertError.None?
    ensures var pid := req.portfolioId.value;
      var s := ReadSheet(download.value).value;
      var rows := SheetRows(pid, s, parse);
      Process(req, download, parse, table, deleteFails, insertError) == Replace(pid, rows, table, deleteFails, None)
      && |rows| <= |s.lines| - 1
      && (forall x :: x in rows ==> x.portfolioId == pid && (x.validated <==> x.symbol in SecurityMaster))
  {
    var o := Process(req, download, parse, table, deleteFails, insertError);
    assert HasFields(req) && download.Ok?;
    assert ReadSheet(download.value).Ok?;
    var s := ReadSheet(download.value).value;
    var pid := req.portfolioId.value;
    var rows := SheetRows(pid, s, parse);
    assert o == Replace(pid, rows, table, deleteFails, insertError);
    SheetRowsShape(pid, s, parse);
  }

  /** The rows of a sheet: at most one per data line, all of the portfolio, validated as `ToInsert` says. */
  lemma SheetRowsShape(pid: string, s: Sheet, parse: string -> Option<real>)
    ensures var rows := SheetRows(pid, s, parse);
      (|s.lines| >= 1 ==> |rows| <= |s.lines| - 1)
      && (forall x :: x in rows ==> x.portfolioId == pid && (x.validated <==> x.symbol in SecurityMaster))
  {
    ParsedInFileOrder(s.lines, |s.lines|, LineStep(s.width, s.cols, parse));
  }

  /** `column_mapping` is never read: the outcome is the same whatever the page sends. */
  lemma ColumnMappingIgnored(req: Request, m: Option<ColumnMapping>, download: Result<string>,
                             parse: string -> Option<real>, table: seq<InsertRow>, deleteFails: bool,
                             insertError: Option<string>)
    ensures Process(req.(columnMapping := m), download, parse, table, deleteFails, insertError)
         == Process(req, download, parse, table, deleteFails, insertError)
  {
    assert HasFields(req.(columnMapping := m)) == HasFields(req);
  }
}
