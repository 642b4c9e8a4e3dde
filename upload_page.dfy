/**
 * `src/pages/Upload.tsx`, `handleSubmit`: after the portfolio is created
 * and the file uploaded, the page asks the backend to process the file's
 * rows, with the column mapping chosen on the page.
 */
module UploadPage {
  import opened Text
  import opened CsvPreview
  import opened UploadRouter

  /**
   * The body of `processPortfolioHoldings`: `tickerColumn` (null when no
   * ticker column was chosen) and `nameColumn` (left out when `undefined`).
   */
  datatype ProcessPayload = ProcessPayload(tickerColumn: Option<nat>, nameColumn: Option<nat>)

  /** `k || undefined`: JavaScript's `||` treats the index 0 like a missing one. */
  function OrUndefined(k: Option<nat>): Option<nat> {
    if k.Some? && k.value != 0 then k else None
  }

  /**
   * The process call as written: made only when a preview exists and at
   * least one column is chosen; the name column goes through `||`.
   */
  function ProcessRequest(preview: Option<Preview>, m: ColumnMapping): (r: Option<ProcessPayload>)
    ensures r.Some? <==> preview.Some? && (m.nameColumn.Some? || m.tickerColumn.Some?)
    ensures r.Some? ==> r.value.tickerColumn == m.tickerColumn
    ensures r.Some? ==> (r.value.nameColumn.Some? <==> m.nameColumn.Some? && m.nameColumn.value != 0)
    ensures r.Some? && r.value.nameColumn.Some? ==> r.value.nameColumn == m.nameColumn
  {
    if preview.Some? && (m.nameColumn.Some? || m.tickerColumn.Some?) then
      Some(ProcessPayload(m.tickerColumn, OrUndefined(m.nameColumn)))
    else None
  }

  /** The process call as evidently intended (`??`): the chosen name column is sent as it is. */
  function ProcessRequestIntended(preview: Option<Preview>, m: ColumnMapping): (r: Option<ProcessPayload>)
    ensures r.Some? <==> preview.Some? && (m.nameColumn.Some? || m.tickerColumn.Some?)
    ensures r.Some? ==> r.value.tickerColumn == m.tickerColumn && r.value.nameColumn == m.nameColumn
  {
    if preview.Some? && (m.nameColumn.Some? || m.tickerColumn.Some?) then
      Some(ProcessPayload(m.tickerColumn, m.nameColumn))
    else None
  }

  function Widen(k: Option<nat>): (r: Option<int>)
    ensures r.Some? <==> k.Some?
    ensures r.Some? ==> r.value == k.value
  {
    if k.Some? then Some(k.value) else None
  }

  /** What the backend reads from the JSON body. */
  function AsBody(p: ProcessPayload): ColumnMappingBody {
    ColumnMappingBody(Widen(p.tickerColumn), Widen(p.nameColumn))
  }

  /**
   * As written, a name column detected or chosen at index 0 never reaches
   * the backend: the request leaves it out, so every holding the backend
   * keeps is stored without a name, whatever the first column holds.
   */
  lemma NameColumnZeroIsDropped(preview: Preview, ticker: nat, headers: seq<string>, row: seq<string>,
                                parse: string -> Option<real>)
    ensures ProcessRequest(Some(preview), ColumnMapping(Some(0), Some(ticker))) ==
      Some(ProcessPayload(Some(ticker), None))
    ensures var body := AsBody(ProcessRequest(Some(preview), ColumnMapping(Some(0), Some(ticker))).value);
      ProcessRow(headers, row, body.tickerColumn.value, body.nameColumn, parse).Keep? ==>
      ProcessRow(headers, row, body.tickerColumn.value, body.nameColumn, parse).holding.name == None
  {
  }

  /**
   * With the intended request, the name column at index 0 is used: a kept
   * row whose first cell is not empty is stored with that cell, stripped,
   * as its name.
   */
  lemma NameColumnZeroIsKept(preview: Preview, ticker: nat, headers: seq<string>, row: seq<string>,
                             parse: string -> Option<real>)
    requires row != [] && row[0] != ""
    ensures ProcessRequestIntended(Some(preview), ColumnMapping(Some(0), Some(ticker))) ==
      Some(ProcessPayload(Some(ticker), Some(0)))
    ensures var body := AsBody(ProcessRequestIntended(Some(preview), ColumnMapping(Some(0), Some(ticker))).value);
      ProcessRow(headers, row, body.tickerColumn.value, body.nameColumn, parse).Keep? ==>
      ProcessRow(headers, row, body.tickerColumn.value, body.nameColumn, parse).holding.name ==
        Some(Trim(row[0], Python))
  {
    if ProcessRow(headers, row, ticker, Some(0), parse).Keep? {
      KeptRowShape(headers, row, ticker, Some(0), parse);
      assert NameCell(row, Some(0)) == NameFound(row[0]);
    }
  }

  /**
   * A mapping that passed the preview gate (both columns chosen) makes an
   * intended request whose body names both columns, each a valid index, so
   * the backend neither refuses it for a missing ticker column nor hits an
   * `IndexError` on any row.
   */
  lemma GatedMappingIsProcessed(preview: Preview, m: ColumnMapping, rows: seq<seq<string>>,
                                parse: string -> Option<real>)
    requires m.nameColumn.Some? && m.tickerColumn.Some?
    ensures ProcessRequestIntended(Some(preview), m).Some?
    ensures var body := AsBody(ProcessRequestIntended(Some(preview), m).value);
      body.tickerColumn == Some(m.tickerColumn.value as int) && body.nameColumn == Some(m.nameColumn.value as int)
      && ProcessAll(rows, RowStep(preview.headers, body.tickerColumn.value, body.nameColumn, parse)).Some?
  {
    var body := AsBody(ProcessRequestIntended(Some(preview), m).value);
    NonNegativeColumnsNeverFail(preview.headers, rows, body.tickerColumn.value, body.nameColumn, parse);
  }

  /**
   * A request with a name column but no ticker column is still sent (with
   * `tickerColumn` null), and the backend then answers with an error.
   */
  lemma TickerlessRequestIsSent(preview: Preview, k: nat)
    ensures ProcessRequest(Some(preview), ColumnMapping(Some(k), None)).Some?
    ensures AsBody(ProcessRequest(Some(preview), ColumnMapping(Some(k), None)).value).tickerColumn.None?
  {
  }
}
