/**
 * `backend/app/routers/upload.py`: the file-type rule, reading an uploaded
 * CSV file into a header row and data rows, the upload route with its
 * preview, and the route that rebuilds a portfolio's holdings from the
 * uploaded rows.
 *
 * What `csv.Sniffer` and `csv.reader` make of the file's bytes is an input
 * (the rows, or the message of the error they raise); `float()` is the
 * parameter `parse`.
 */
module UploadRouter {
  import opened Text
  import opened Db

  // ---------------------------------------------------------------------
  // File names

  /** The parts of a POSIX path: the pieces between slashes, without "" and ".". */
  function PathParts(path: string): (r: seq<string>)
    ensures forall k :: 0 <= k < |r| ==> r[k] != "" && r[k] != "." && '/' !in r[k]
  {
    SplitPieces(path, '/');
    ProperParts(Split(path, '/'))
  }

  function ProperParts(pieces: seq<string>): (r: seq<string>)
    requires forall k :: 0 <= k < |pieces| ==> '/' !in pieces[k]
    ensures forall k :: 0 <= k < |r| ==> r[k] != "" && r[k] != "." && '/' !in r[k]
  {
    if pieces == [] then []
    else
      var rest := ProperParts(pieces[1..]);
      if pieces[0] == "" || pieces[0] == "." then rest else [pieces[0]] + rest
  }

  /** `Path(filename).name`: the last part, or "" when there is none. */
  function PathName(path: string): (r: string)
    ensures '/' !in r && r != "."
  {
    var parts := PathParts(path);
    if parts == [] then "" else parts[|parts| - 1]
  }

  /** `name.rfind('.')`: the position of the last dot, if any. */
  function LastDot(name: string): (r: Option<nat>)
    ensures r.None? <==> forall k :: 0 <= k < |name| ==> name[k] != '.'
    ensures r.Some? ==> r.value < |name| && name[r.value] == '.'
    ensures r.Some? ==> forall k :: r.value < k < |name| ==> name[k] != '.'
  {
    if name == [] then None
    else if name[|name| - 1] == '.' then Some(|name| - 1)
    else LastDot(name[..|name| - 1])
  }

  /** Position `i` holds the dot `suffix` starts from: not first, not last, and no dot after it. */
  predicate SuffixDot(name: string, i: int) {
    0 < i < |name| - 1 && name[i] == '.' && forall k :: i < k < |name| ==> name[k] != '.'
  }

  /** `PurePath.suffix`: from the last dot on, unless that dot is the first or last character. */
  function Suffix(name: string): string {
    match LastDot(name)
    case Some(i) => if 0 < i < |name| - 1 then name[i..] else ""
    case None => ""
  }

  /** The suffix is empty exactly when no dot qualifies, and otherwise starts at that dot. */
  lemma SuffixShape(name: string)
    ensures Suffix(name) == "" <==> forall i :: !SuffixDot(name, i)
    ensures forall i :: SuffixDot(name, i) ==> Suffix(name) == name[i..]
  {
    match LastDot(name)
    case None =>
    case Some(i) =>
      assert forall j :: SuffixDot(name, j) ==> j == i;
      if 0 < i < |name| - 1 {
        assert SuffixDot(name, i);
      }
  }

  /** `get_file_extension`: `Path(filename).suffix.lower()`. */
  function FileExtension(filename: string): string {
    Lower(Suffix(PathName(filename)))
  }

  /**
   * The extension is empty exactly when the final path component has no
   * dot that is neither its first nor its last character; otherwise it is
   * the lower-cased component from its last dot on: at least two
   * characters, the first a dot, no other dot and no slash.
   */
  lemma FileExtensionShape(filename: string)
    ensures var n := PathName(filename);
      FileExtension(filename) == "" <==> forall i :: !SuffixDot(n, i)
    ensures var n := PathName(filename);
      forall i :: SuffixDot(n, i) ==> FileExtension(filename) == Lower(n[i..])
    ensures var e := FileExtension(filename);
      e != "" ==> (|e| >= 2 && e[0] == '.' && IsLower(e)
        && (forall k :: 1 <= k < |e| ==> e[k] != '.') && (forall k :: 0 <= k < |e| ==> e[k] != '/'))
  {
    var n := PathName(filename);
    SuffixShape(n);
    LowerIsLower(Suffix(n));
    if FileExtension(filename) != "" {
      var i :| SuffixDot(n, i);
      LowerSuffix(n, i);
    }
  }

  lemma LowerSuffix(n: string, i: int)
    requires SuffixDot(n, i) && '/' !in n
    ensures var e := Lower(n[i..]);
      |e| >= 2 && e[0] == '.'
      && (forall k :: 1 <= k < |e| ==> e[k] != '.') && (forall k :: 0 <= k < |e| ==> e[k] != '/')
  {
    var s := n[i..];
    assert forall k :: 0 <= k < |s| ==> s[k] == n[i + k];
  }

  const AllowedExtensions: set<string> := {".csv", ".xlsx", ".xls"}

  /** `is_allowed_file`. */
  predicate IsAllowedFile(filename: string) {
    FileExtension(filename) in AllowedExtensions
  }

  // ---------------------------------------------------------------------
  // Reading a file

  /** What `read_file_data` returns. */
  datatype FileData = FileData(headers: seq<string>, rows: seq<seq<string>>, totalRows: nat)

  const EmptyCsv := "CSV file is empty"

  function UnsupportedFormat(ext: string): string {
    "Unsupported file format: " + ext + ". Only CSV files are supported for now."
  }

  /**
   * `read_file_data` for a file whose suffix is `ext` and whose rows, as
   * `csv.reader` reads them, are `parsed` (or the error it raised).
   */
  function ReadFileData(ext: string, parsed: Result<seq<seq<string>>>): (r: Result<FileData>)
    ensures r.Ok? <==> ext == ".csv" && parsed.Ok? && parsed.value != []
    ensures ext != ".csv" ==> r == Err(UnsupportedFormat(ext))
    ensures ext == ".csv" && parsed.Err? ==> r == Err(parsed.error)
    ensures ext == ".csv" && parsed == Ok([]) ==> r == Err(EmptyCsv)
    ensures r.Ok? ==> [r.value.headers] + r.value.rows == parsed.value
    ensures r.Ok? ==> r.value.totalRows == |r.value.rows| == |parsed.value| - 1
  {
    if ext != ".csv" then Err(UnsupportedFormat(ext))
    else match parsed
      case Err(e) => Err(e)
      case Ok(rows) =>
        if rows == [] then Err(EmptyCsv)
        else
          assert rows == [rows[0]] + rows[1..];
          Ok(FileData(rows[0], rows[1..], |rows| - 1))
  }

  // ---------------------------------------------------------------------
  // Upload

  /** The JSON the upload route answers with. */
  datatype UploadPreview = UploadPreview(
    headers: seq<string>,
    rows: seq<seq<string>>,
    totalRows: nat,
    fileName: string,
    filePath: UploadPath)

  const InvalidFileType := "Invalid file type. Only CSV and Excel files are allowed."

  /**
   * `upload_portfolio_file`: 404 unless the caller owns the portfolio; 400
   * for an empty or disallowed file name, before anything is written; then
   * the file is saved under a fresh name and read back.  A read error
   * removes the file again and answers 500; otherwise the portfolio points
   * at the file and the answer previews its first 10 data rows.
   */
  method UploadPortfolioFile(db: Database, user: Id, pid: Id, filename: string,
                             parsed: Result<seq<seq<string>>>) returns (r: Response<UploadPreview>)
    requires db.Valid()
    modifies db`portfolios, db`files, db`nextId
    ensures db.Valid()
    ensures !old(db.Owns(user, pid)) ==> r == Failure(404, PortfolioNotFound)
    ensures old(db.Owns(user, pid)) && (filename == "" || !IsAllowedFile(filename)) ==>
      r == Failure(400, InvalidFileType) && db.nextId == old(db.nextId)
    ensures r.Failure? ==> db.portfolios == old(db.portfolios) && db.files == old(db.files)
    ensures old(db.Owns(user, pid)) && filename != "" && IsAllowedFile(filename) ==>
      var ext := FileExtension(filename);
      var path := UploadPath(pid, old(db.nextId), ext);
      match ReadFileData(ext, parsed)
      case Err(e) => r == Failure(500, "Error processing file: " + e)
      case Ok(data) =>
        r == Success(UploadPreview(data.headers, Take(data.rows, 10), data.totalRows, filename, path))
        && db.files == old(db.files)[path := parsed.value]
        && db.portfolios == old(db.portfolios)[pid := old(db.portfolios[pid]).(filePath := Some(path))]
  {
    if !db.Owns(user, pid) {
      return Failure(404, PortfolioNotFound);
    }
    if filename == "" || !IsAllowedFile(filename) {
      return Failure(400, InvalidFileType);
    }
    var ext := FileExtension(filename);
    var path := UploadPath(pid, db.nextId, ext);
    var row := db.portfolios[pid].(filePath := Some(path));
    PortfolioReplaced(db.portfolios, db.holdings, db.recaps, db.nextId, db.portfolios[pid], db.nextId + 1);
    PortfolioReplaced(db.portfolios, db.holdings, db.recaps, db.nextId, row, db.nextId + 1);
    assert db.portfolios[pid := db.portfolios[pid]] == db.portfolios;
    db.nextId := db.nextId + 1;
    var data := ReadFileData(ext, parsed);
    if data.Err? {
      return Failure(500, "Error processing file: " + data.error);
    }
    db.files := db.files[path := parsed.value];
    db.portfolios := db.portfolios[pid := row];
    r := Success(UploadPreview(data.value.headers, Take(data.value.rows, 10), data.value.totalRows, filename, path));
  }

  // ---------------------------------------------------------------------
  // Column classification

  /** The holding field a header feeds. */
  datatype Target = QuantityColumn | PriceColumn | MarketValueColumn

  /** The `if`/`elif` chain on the lower-cased header name. */
  function ColumnTarget(header: string): Option<Target> {
    var h := Lower(header);
    if Contains(h, "quantity") || Contains(h, "shares") then Some(QuantityColumn)
    else if Contains(h, "price") && !Contains(h, "market") then Some(PriceColumn)
    else if Contains(h, "market") && Contains(h, "value") then Some(MarketValueColumn)
    else None
  }

  /** `quantity`, `price` and `market_value` while the header loop runs. */
  datatype Amounts = Amounts(quantity: Option<real>, price: Option<real>, marketValue: Option<real>)

  function Get(a: Amounts, t: Target): Option<real> {
    match t
    case QuantityColumn => a.quantity
    case PriceColumn => a.price
    case MarketValueColumn => a.marketValue
  }

  function Put(a: Amounts, t: Target, v: real): Amounts {
    match t
    case QuantityColumn => a.(quantity := Some(v))
    case PriceColumn => a.(price := Some(v))
    case MarketValueColumn => a.(marketValue := Some(v))
  }

  /**
   * One turn of the header loop: a non-empty cell under a classified header
   * is converted; a failed conversion is passed over and changes nothing.
   */
  function ClassifyCell(a: Amounts, header: string, cell: string, parse: string -> Option<real>): Amounts {
    if cell == "" then a
    else match ColumnTarget(header)
      case None => a
      case Some(t) =>
        match parse(cell)
        case None => a
        case Some(v) => Put(a, t, v)
  }

  /** The amounts after the header loop has run over the first `n` headers. */
  function Classify(headers: seq<string>, row: seq<string>, parse: string -> Option<real>, n: nat): Amounts
    requires n <= |headers|
  {
    if n == 0 then Amounts(None, None, None)
    else
      var a := Classify(headers, row, parse, n - 1);
      if n - 1 < |row| then ClassifyCell(a, headers[n - 1], row[n - 1], parse) else a
  }

  /** Column `j` assigns field `t`: a non-empty cell, a header feeding `t`, a value that converts. */
  predicate Writes(headers: seq<string>, row: seq<string>, parse: string -> Option<real>, j: int, t: Target) {
    0 <= j < |headers| && j < |row| && row[j] != "" && ColumnTarget(headers[j]) == Some(t)
    && parse(row[j]).Some?
  }

  /** Column `j` is the last of the first `n` columns that assigns field `t`. */
  predicate LastWriter(headers: seq<string>, row: seq<string>, parse: string -> Option<real>, j: int, n: int, t: Target) {
    j < n && Writes(headers, row, parse, j, t) && forall k :: j < k < n ==> !Writes(headers, row, parse, k, t)
  }

  lemma ClassifyStep(headers: seq<string>, row: seq<string>, parse: string -> Option<real>, n: nat, t: Target)
    requires 0 < n <= |headers|
    ensures Get(Classify(headers, row, parse, n), t) ==
      if Writes(headers, row, parse, n - 1, t) then parse(row[n - 1]) else Get(Classify(headers, row, parse, n - 1), t)
  {
  }

  /**
   * Last writer wins: each field holds the value of the last column that
   * assigns it, and stays null when no column does.
   */
  lemma LastWriterWins(headers: seq<string>, row: seq<string>, parse: string -> Option<real>, n: nat, t: Target)
    requires n <= |headers|
    ensures forall j :: LastWriter(headers, row, parse, j, n, t) ==>
      Get(Classify(headers, row, parse, n), t) == parse(row[j])
    ensures (forall j :: 0 <= j < n ==> !Writes(headers, row, parse, j, t)) ==>
      Get(Classify(headers, row, parse, n), t) == None
  {
    forall j | LastWriter(headers, row, parse, j, n, t)
      ensures Get(Classify(headers, row, parse, n), t) == parse(row[j])
    {
      LastWriterValue(headers, row, parse, j, n, t);
    }
    if forall j :: 0 <= j < n ==> !Writes(headers, row, parse, j, t) {
      NoWriterNone(headers, row, parse, n, t);
    }
  }

  lemma {:induction false} LastWriterValue(headers: seq<string>, row: seq<string>, parse: string -> Option<real>,
                                           j: int, n: nat, t: Target)
    requires n <= |headers| && LastWriter(headers, row, parse, j, n, t)
    ensures Get(Classify(headers, row, parse, n), t) == parse(row[j])
    decreases n
  {
    ClassifyStep(headers, row, parse, n, t);
    EarlierWriter(headers, row, parse, j, n, t);
    if j < n - 1 {
      LastWriterValue(headers, row, parse, j, n - 1, t);
    }
  }

  lemma {:induction false} NoWriterNone(headers: seq<string>, row: seq<string>, parse: string -> Option<real>,
                                        n: nat, t: Target)
    requires n <= |headers| && forall j :: 0 <= j < n ==> !Writes(headers, row, parse, j, t)
    ensures Get(Classify(headers, row, parse, n), t) == None
    decreases n
  {
    if n > 0 {
      ClassifyStep(headers, row, parse, n, t);
      NoWriterNone(headers, row, parse, n - 1, t);
    }
  }

  /** The last writer among `n` columns is column `n - 1`, or the last writer among the first `n - 1`. */
  lemma EarlierWriter(headers: seq<string>, row: seq<string>, parse: string -> Option<real>, j: int, n: int, t: Target)
    requires LastWriter(headers, row, parse, j, n, t)
    ensures j == n - 1 || (!Writes(headers, row, parse, n - 1, t) && LastWriter(headers, row, parse, j, n - 1, t))
  {
  }

  /** The header loop of `process_portfolio_holdings`: each field ends with its last writer's value. */
  method ClassifyColumns(headers: seq<string>, row: seq<string>, parse: string -> Option<real>) returns (a: Amounts)
    ensures a == Classify(headers, row, parse, |headers|)
    ensures forall t, j :: LastWriter(headers, row, parse, j, |headers|, t) ==> Get(a, t) == parse(row[j])
    ensures forall t :: (forall j :: 0 <= j < |headers| ==> !Writes(headers, row, parse, j, t)) ==> Get(a, t) == None
  {
    a := Amounts(None, None, None);
    for i := 0 to |headers|
      invariant a == Classify(headers, row, parse, i)
    {
      if i < |row| && row[i] != "" {
        match ColumnTarget(headers[i])
        case None =>
        case Some(t) =>
          var v := parse(row[i]);
          if v.Some? {
            a := Put(a, t, v.value);
          }
      }
    }
    forall t: Target {
      LastWriterWins(headers, row, parse, |headers|, t);
    }
  }

  // ---------------------------------------------------------------------
  // Rows to holdings

  /** `row[k]` in Python: negative `k` counts from the end; out of range is an `IndexError`. */
  function PyIndex(row: seq<string>, k: int): (r: Option<string>)
    ensures r.Some? <==> -|row| <= k < |row|
  {
    if 0 <= k < |row| then Some(row[k])
    else if -|row| <= k < 0 then Some(row[|row| + k])
    else None
  }

  /** `str(symbol).upper().strip()`. */
  function CleanSymbol(cell: string): string {
    Trim(Upper(cell), Python)
  }

  /** A symbol cell that is not blank gives a stored symbol that is upper-case, stripped and not empty. */
  lemma CleanSymbolShape(cell: string)
    ensures var s := CleanSymbol(cell);
      (s != "" <==> !AllSpace(cell, Python)) && IsUpper(s) && IsTrimmed(s, Python)
  {
    UpperKeepsSpace(cell, Python);
    UpperIsUpper(cell);
    TrimKeepsUpper(Upper(cell), Python);
  }

  /** A holding built from one row, before it gets an id. */
  datatype NewHolding = NewHolding(symbol: string, name: Option<string>, amounts: Amounts)

  /** What one row of the loop does: nothing, one holding, or an `IndexError`. */
  datatype RowOutcome = Skip | Keep(holding: NewHolding) | IndexError

  /** The name cell: no name column applies, the cell, or a lookup that raises `IndexError`. */
  datatype NameLookup = NoNameColumn | NameFound(cell: string) | NameOutOfRange

  /** `name_col is not None and len(row) > name_col and row[name_col]`, up to the truth test. */
  function NameCell(row: seq<string>, nameCol: Option<int>): NameLookup {
    if nameCol.Some? && |row| > nameCol.value then
      match PyIndex(row, nameCol.value)
      case Some(cell) => NameFound(cell)
      case None => NameOutOfRange
    else NoNameColumn
  }

  /** `str(name).strip() if name else None`. */
  function StoredName(lookup: NameLookup): Option<string> {
    if lookup.NameFound? && lookup.cell != "" then Some(Trim(lookup.cell, Python)) else None
  }

  /**
   * One turn of the row loop.  A row too short for the symbol column is
   * skipped; the symbol cell is looked up, then the name cell; a row is kept
   * when its symbol is not blank.  The symbol is upper-cased and stripped,
   * a non-empty name cell stripped.
   */
  function ProcessRow(headers: seq<string>, row: seq<string>, symbolCol: int, nameCol: Option<int>,
                      parse: string -> Option<real>): RowOutcome
  {
    if |row| <= symbolCol then Skip
    else match PyIndex(row, symbolCol)
      case None => IndexError
      case Some(symbol) =>
        var lookup := NameCell(row, nameCol);
        if lookup.NameOutOfRange? then IndexError
        else if symbol == "" || Trim(symbol, Python) == "" then Skip
        else Keep(NewHolding(CleanSymbol(symbol), StoredName(lookup), Classify(headers, row, parse, |headers|)))
  }

  /**
   * A kept row's holding has a symbol that is upper-case, stripped and not
   * empty, taken from the symbol cell; a name exactly when the name column
   * applies and its cell is not empty; and the amounts of the header loop.
   */
  lemma KeptRowShape(headers: seq<string>, row: seq<string>, symbolCol: int, nameCol: Option<int>,
                     parse: string -> Option<real>)
    requires ProcessRow(headers, row, symbolCol, nameCol, parse).Keep?
    ensures var h := ProcessRow(headers, row, symbolCol, nameCol, parse).holding;
      symbolCol < |row| && PyIndex(row, symbolCol).Some?
      && h.symbol == CleanSymbol(PyIndex(row, symbolCol).value)
      && h.symbol != "" && IsUpper(h.symbol) && IsTrimmed(h.symbol, Python)
      && h.amounts == Classify(headers, row, parse, |headers|)
      && h.name == StoredName(NameCell(row, nameCol))
      && (h.name.Some? <==> NameCell(row, nameCol).NameFound? && NameCell(row, nameCol).cell != "")
  {
    var symbol := PyIndex(row, symbolCol).value;
    assert Trim(symbol, Python) != "";
    CleanSymbolShape(symbol);
  }

  /** The row loop with step `step`: the holdings built, or `None` once a row raised `IndexError`. */
  function ProcessAll(rows: seq<seq<string>>, step: seq<string> -> RowOutcome): Option<seq<NewHolding>> {
    if rows == [] then Some([])
    else
      match ProcessAll(rows[..|rows| - 1], step)
      case None => None
      case Some(done) =>
        match step(rows[|rows| - 1])
        case Skip => Some(done)
        case Keep(h) => Some(done + [h])
        case IndexError => None
  }

  /** The holdings of the kept rows, in file order (a reference definition, front to back). */
  function KeptHoldings(rows: seq<seq<string>>, step: seq<string> -> RowOutcome): seq<NewHolding> {
    if rows == [] then []
    else
      var rest := KeptHoldings(rows[1..], step);
      match step(rows[0])
      case Keep(h) => [h] + rest
      case _ => rest
  }

  /** The step of `process_portfolio_holdings` for one column mapping. */
  function RowStep(headers: seq<string>, symbolCol: int, nameCol: Option<int>, parse: string -> Option<real>)
    : seq<string> -> RowOutcome
  {
    row => ProcessRow(headers, row, symbolCol, nameCol, parse)
  }

  lemma KeptHoldingsSnoc(rows: seq<seq<string>>, row: seq<string>, step: seq<string> -> RowOutcome)
    ensures KeptHoldings(rows + [row], step) ==
      KeptHoldings(rows, step) + (match step(row) case Keep(h) => [h] case _ => [])
    decreases |rows|
  {
    if rows != [] {
      assert (rows + [row])[1..] == rows[1..] + [row];
      KeptHoldingsSnoc(rows[1..], row, step);
    }
  }

  /**
   * The loop fails exactly when some row raises `IndexError`; otherwise it
   * creates one holding per kept row, in file order.
   */
  lemma {:induction false} ProcessAllKeepsRows(rows: seq<seq<string>>, step: seq<string> -> RowOutcome)
    ensures ProcessAll(rows, step).None? <==> exists j :: 0 <= j < |rows| && step(rows[j]).IndexError?
    ensures ProcessAll(rows, step).Some? ==> ProcessAll(rows, step).value == KeptHoldings(rows, step)
    decreases |rows|
  {
    if rows != [] {
      var init := rows[..|rows| - 1];
      var last := rows[|rows| - 1];
      ProcessAllKeepsRows(init, step);
      assert rows == init + [last];
      KeptHoldingsSnoc(init, last, step);
      assert forall j :: 0 <= j < |init| ==> init[j] == rows[j];
    }
  }

  /** There are at most as many holdings as rows. */
  lemma ProcessAllSnoc(rows: seq<seq<string>>, i: nat, step: seq<string> -> RowOutcome)
    requires i < |rows|
    ensures ProcessAll(rows[..i + 1], step) ==
      match ProcessAll(rows[..i], step)
      case None => None
      case Some(done) =>
        match step(rows[i])
        case Skip => Some(done)
        case Keep(h) => Some(done + [h])
        case IndexError => None
  {
    assert rows[..i + 1][..i] == rows[..i];
  }

  lemma {:induction false} KeptHoldingsBound(rows: seq<seq<string>>, step: seq<string> -> RowOutcome)
    ensures |KeptHoldings(rows, step)| <= |rows|
    decreases |rows|
  {
    if rows != [] {
      KeptHoldingsBound(rows[1..], step);
    }
  }

  /** Only a negative column index can raise `IndexError`. */
  lemma NonNegativeColumnsNeverFail(headers: seq<string>, rows: seq<seq<string>>, symbolCol: int,
                                    nameCol: Option<int>, parse: string -> Option<real>)
    requires symbolCol >= 0 && (nameCol.Some? ==> nameCol.value >= 0)
    ensures ProcessAll(rows, RowStep(headers, symbolCol, nameCol, parse)).Some?
  {
    var step := RowStep(headers, symbolCol, nameCol, parse);
    ProcessAllKeepsRows(rows, step);
    forall j | 0 <= j < |rows| ensures !step(rows[j]).IndexError? {
      assert step(rows[j]) == ProcessRow(headers, rows[j], symbolCol, nameCol, parse);
    }
  }

  // ---------------------------------------------------------------------
  // Processing route

  /** The body of the processing request: `tickerColumn` and `nameColumn`, null or missing as `None`. */
  datatype ColumnMappingBody = ColumnMappingBody(tickerColumn: Option<int>, nameColumn: Option<int>)

  /** The JSON the processing route answers with. */
  datatype ProcessSummary = ProcessSummary(message: string, holdingsCreated: nat)

  const NoUploadedFile := "No uploaded file found for this portfolio"

  /** The text of an `HTTPException` raised inside the `try` block, as `str(e)` renders it. */
  const MissingTickerColumn := "400: Symbol/Ticker column mapping is required"

  /** The text of the `IndexError` a row raises. */
  const IndexOutOfRange := "list index out of range"

  /** The stored row of a new holding: not validated yet, status "pending". */
  function StoredHolding(h: NewHolding, id: Id, pid: Id): Holding {
    Holding(id, pid, Some(h.symbol), h.name, h.amounts.quantity, h.amounts.price,
            h.amounts.marketValue, None, None, Some(false), Some("pending"))
  }

  /** The rows the loop adds: the `k`-th new holding under id `base + k`. */
  function AddedRows(hs: seq<NewHolding>, pid: Id, base: Id): map<Id, Holding> {
    if hs == [] then map[]
    else
      var n := |hs| - 1;
      AddedRows(hs[..n], pid, base)[base + n := StoredHolding(hs[n], base + n, pid)]
  }

  /** The added rows are the new holdings, in order, under the ids from `base` on, all of portfolio `pid`. */
  lemma {:induction false} AddedRowsShape(hs: seq<NewHolding>, pid: Id, base: Id)
    ensures var m := AddedRows(hs, pid, base);
      (forall k :: k in m <==> base <= k < base + |hs|) &&
      (forall i :: 0 <= i < |hs| ==> m[base + i] == StoredHolding(hs[i], base + i, pid)) &&
      (forall k :: k in m ==>
        m[k].id == k && m[k].portfolioId == pid && m[k].symbol.Some?
        && m[k].validated == Some(false) && m[k].validationStatus == Some("pending"))
    decreases |hs|
  {
    if hs != [] {
      AddedRowsShape(hs[..|hs| - 1], pid, base);
    }
  }

  /** The holdings once those of portfolio `pid` are deleted and the new ones added. */
  function Rebuilt(before: map<Id, Holding>, hs: seq<NewHolding>, pid: Id, base: Id): map<Id, Holding> {
    HoldingsOutside(before, pid) + AddedRows(hs, pid, base)
  }

  lemma AddedRowsSnoc(hs: seq<NewHolding>, h: NewHolding, pid: Id, base: Id)
    ensures AddedRows(hs + [h], pid, base) == AddedRows(hs, pid, base)[base + |hs| := StoredHolding(h, base + |hs|, pid)]
  {
    assert (hs + [h])[..|hs|] == hs;
  }

  lemma UnionUpdate<K, V>(m: map<K, V>, a: map<K, V>, k: K, v: V)
    ensures (m + a)[k := v] == m + a[k := v]
  {
  }

  /**
   * After a rebuild the holdings of the portfolio are exactly the new ones,
   * in id order, each validated False with status "pending"; other
   * portfolios' holdings are as they were.
   */
  lemma RebuiltHoldings(before: map<Id, Holding>, hs: seq<NewHolding>, pid: Id, base: Id)
    requires forall k :: k in before ==> k < base
    ensures var m := Rebuilt(before, hs, pid, base);
      (forall k :: k in m && m[k].portfolioId == pid ==> base <= k < base + |hs|) &&
      (forall i :: 0 <= i < |hs| ==> base + i in m && m[base + i] == StoredHolding(hs[i], base + i, pid)) &&
      (forall k :: k in m && m[k].portfolioId == pid ==>
        m[k].validated == Some(false) && m[k].validationStatus == Some("pending")) &&
      (forall k :: k in before && before[k].portfolioId != pid ==> k in m && m[k] == before[k]) &&
      (forall k :: k in m ==> k in before || base <= k < base + |hs|)
  {
    var m := Rebuilt(before, hs, pid, base);
    AddedRowsShape(hs, pid, base);
    forall i | 0 <= i < |hs| ensures base + i in m && m[base + i] == StoredHolding(hs[i], base + i, pid) {
      assert base + i in AddedRows(hs, pid, base);
    }
  }

  /**
   * The loop of `process_portfolio_holdings` after the old holdings are
   * deleted: the session collects the added rows, which reach the table at
   * the commit; an `IndexError` leaves the table as it was.
   */
  method AddHoldings(db: Database, pid: Id, rows: seq<seq<string>>, step: seq<string> -> RowOutcome)
    returns (created: Option<seq<NewHolding>>)
    requires db.Valid() && pid in db.portfolios
    modifies db`holdings, db`nextId
    ensures db.Valid()
    ensures created == ProcessAll(rows, step)
    ensures created.None? ==> db.holdings == old(db.holdings) && db.nextId == old(db.nextId)
    ensures created.Some? ==>
      db.holdings == old(db.holdings) + AddedRows(created.value, pid, old(db.nextId))
      && db.nextId == old(db.nextId) + |created.value|
  {
    var base := db.nextId;
    var holdings := db.holdings;
    var next := base;
    var done: seq<NewHolding> := [];
    ghost var added: map<Id, Holding> := map[];
    for i := 0 to |rows|
      invariant db.holdings == old(db.holdings) && db.nextId == base
      invariant ProcessAll(rows[..i], step) == Some(done)
      invariant next == base + |done|
      invariant added == AddedRows(done, pid, base)
      invariant holdings == db.holdings + added
      invariant Consistent(db.portfolios, holdings, db.recaps, next)
    {
      ProcessAllSnoc(rows, i, step);
      var outcome := step(rows[i]);
      if outcome.IndexError? {
        ProcessAllKeepsRows(rows, step);
        assert step(rows[i]).IndexError?;
        return None;
      }
      if outcome.Keep? {
        var stored := StoredHolding(outcome.holding, next, pid);
        AddedRowsSnoc(done, outcome.holding, pid, base);
        UnionUpdate(db.holdings, added, next, stored);
        HoldingAdded(db.portfolios, holdings, db.recaps, next, stored);
        holdings := holdings[next := stored];
        added := added[next := stored];
        next := next + 1;
        done := done + [outcome.holding];
      }
    }
    assert rows[..|rows|] == rows;
    db.holdings := holdings;
    db.nextId := next;
    created := Some(done);
  }

  /**
   * `process_portfolio_holdings`.  404 unless the caller owns the
   * portfolio, 400 when it has no uploaded file: both before any holding
   * is touched.  Inside the `try`, a read error, a missing ticker column
   * (whose 400 the `except` turns into a 500) or an `IndexError` roll back
   * to the old holdings.  Otherwise the portfolio's holdings are replaced by
   * one holding per kept row.
   */
  method ProcessPortfolioHoldings(db: Database, user: Id, pid: Id, mapping: ColumnMappingBody,
                                  parse: string -> Option<real>) returns (r: Response<ProcessSummary>)
    requires db.Valid()
    modifies db`holdings, db`nextId
    ensures db.Valid()
    ensures !old(db.Owns(user, pid)) ==> r == Failure(404, PortfolioNotFound)
    ensures (old(db.Owns(user, pid)) &&
      (old(db.portfolios[pid].filePath).None? || old(db.portfolios[pid].filePath).value !in old(db.files))) ==>
      r == Failure(400, NoUploadedFile)
    ensures r.Failure? ==> db.holdings == old(db.holdings)
    ensures (old(db.Owns(user, pid)) && old(db.portfolios[pid].filePath).Some? &&
      old(db.portfolios[pid].filePath).value in old(db.files)) ==>
      var path := old(db.portfolios[pid].filePath).value;
      var data := ReadFileData(path.ext, Ok(old(db.files)[path]));
      (data.Err? ==> r == Failure(500, "Error processing holdings: " + data.error)) &&
      (data.Ok? && mapping.tickerColumn.None? ==>
        r == Failure(500, "Error processing holdings: " + MissingTickerColumn)) &&
      (data.Ok? && mapping.tickerColumn.Some? ==>
        var hs := ProcessAll(data.value.rows, RowStep(data.value.headers, mapping.tickerColumn.value,
                                                       mapping.nameColumn, parse));
        (hs.None? ==> r == Failure(500, "Error processing holdings: " + IndexOutOfRange)) &&
        (hs.Some? ==>
          r == Success(ProcessSummary("Successfully processed " + Decimal(|hs.value|) + " holdings", |hs.value|))
          && db.holdings == Rebuilt(old(db.holdings), hs.value, pid, old(db.nextId))))
  {
    if !db.Owns(user, pid) {
      return Failure(404, PortfolioNotFound);
    }
    var portfolio := db.portfolios[pid];
    if portfolio.filePath.None? || portfolio.filePath.value !in db.files {
      return Failure(400, NoUploadedFile);
    }
    var path := portfolio.filePath.value;
    var data := ReadFileData(path.ext, Ok(db.files[path]));
    if data.Err? {
      return Failure(500, "Error processing holdings: " + data.error);
    }
    if mapping.tickerColumn.None? {
      return Failure(500, "Error processing holdings: " + MissingTickerColumn);
    }
    var step := RowStep(data.value.headers, mapping.tickerColumn.value, mapping.nameColumn, parse);
    var saved := db.holdings;
    db.holdings := HoldingsOutside(db.holdings, pid);
    var created := AddHoldings(db, pid, data.value.rows, step);
    if created.None? {
      db.holdings := saved;
      return Failure(500, "Error processing holdings: " + IndexOutOfRange);
    }
    var n := |created.value|;
    r := Success(ProcessSummary("Successfully processed " + Decimal(n) + " holdings", n));
  }
}
