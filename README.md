# Scout portfolio tracker: holdings ingestion and portfolio tables

This project is a Dafny model of the part of the Scout portfolio tracker that
takes a portfolio's holdings in as a spreadsheet and keeps them, together
with the portfolios and e-mail recaps they belong to, in ownership-scoped
tables. It covers these parts:

- **The CSV preview of the upload pages.** `Upload.tsx` and
  `UploadHoldings.tsx` contain the same code for it:
  - the quote-aware line splitter;
  - header normalisation;
  - the five-row preview window;
  - name and ticker column detection;
  - the file-type rule;
  - the gate that moves the page to its preview step;
  - what `handleSubmit` sends on.
- **The `process-portfolio-file` edge function.** It finds the columns by
  their headers, turns rows into holdings, and validates them against the
  ten-entry security master. Then it replaces the portfolio's holdings and
  counts the valid securities.
- **The FastAPI upload route (`upload.py`).** It covers pathlib's suffix
  rule, the extension allow-list and `read_file_data`. The upload writes the
  file and previews its first ten rows. `process_portfolio_holdings`
  rebuilds a portfolio's holdings from the rows, with its row rules and its
  header-keyword classification.
- **The `verify-holdings` edge function.** It fills in a results object
  from the file's line count and first line.
- **The `generate-portfolio-recap` edge function.** The model covers:
  - its method and portfolio guards;
  - the prompt's fallbacks;
  - the case-insensitive `Subject:` extraction, modelled as the regular
    expression behaves, backtracking included;
  - storing the recap and the 200-character preview.
- **The portfolio, holding and recap routers.** Every route fails with 404
  unless the caller owns the portfolio. Partial updates assign only the
  fields that were sent. Deleting a portfolio cascades to its holdings and
  recaps.

The model is organised as follows:

- **Text and CSV modules.**
  - `Text` holds the string operations both runtimes use: JavaScript's and
    Python's white space and trim, ASCII case mapping, split and substring
    search.
  - `CsvPreview` is the preview logic the two pages share.
  - `UploadForm.Form` is the page state the two pages share, a class whose
    methods are the event handlers.
- **Page and function modules.** `UploadPage` and `UploadHoldingsPage` hold
  what differs between the pages. `ProcessPortfolioFile`, `VerifyHoldings`
  and `GenerateRecap` are the three edge functions.
- **The tables and the routers.** The backend's tables are the class
  `Db.Database`, with one map per table keyed by row id. A `uuid4()` is a
  fresh number drawn from a counter. The routers (`PortfoliosRouter`,
  `HoldingsRouter`, `RecapsRouter`, `UploadRouter`) are methods on that
  database.
- **Loops.** The loops of the source are methods with loops, each proved
  equal to a specification function:
  - `parseCSVLine`;
  - the `setattr` update loops;
  - the row loops of both processors;
  - the header classification loop;
  - the results object of `verify-holdings`.
- **Inputs.** Things the code receives from outside are parameters:
  - storage downloads and the AI model's answer;
  - the database's insert and delete errors;
  - the clock;
  - `csv.reader`'s rows;
  - `parseFloat`/`float`, as an uninterpreted `string -> Option<real>`.

## Model

| member | source | states |
|---|---|---|
| CsvPreview.ParseCsvLine | src/pages/Upload.tsx:59-77 | the character loop returns the fields of the two-state quote machine; there is one more field than there are commas outside double quotes |
| CsvPreview.InQuotesParity | src/pages/Upload.tsx:66-68 | after any prefix, the splitter is inside quotes exactly when it has seen an odd number of `"` |
| CsvPreview.CompletedFields | src/pages/Upload.tsx:69-71 | the splitter completes one field per comma outside quotes |
| CsvPreview.FieldCount | src/pages/UploadHoldings.tsx:91-109 | a line splits into (commas outside quotes) + 1 fields |
| CsvPreview.RunHasNoQuotes | src/pages/Upload.tsx:66-75 | quote characters only toggle the state and never reach the current field or a finished field |
| CsvPreview.FieldsTrimmed | src/pages/Upload.tsx:70 | every completed field is trimmed |
| CsvPreview.FieldsTrimmedWithoutQuotes | src/pages/Upload.tsx:59-77 | every field returned is trimmed and contains no `"` |
| CsvPreview.QuoteFreeLineIsPlainSplit | src/pages/Upload.tsx:59-77 | on a line without `"`, the splitter agrees with splitting on ',' and trimming every piece |
| CsvPreview.QuotedFieldsKeepCommas | src/pages/Upload.tsx:59-77 | a line of fields joined by ',', each field free of `"` and either wrapped in double quotes or free of commas, parses back to exactly those fields, trimmed, one per field: the commas of a quoted field stay inside it |
| CsvPreview.QuotedCompanyName | src/pages/Upload.tsx:59-77 | `AAPL,"Apple, Inc.",10` parses as `AAPL`, `Apple, Inc.`, `10` |
| CsvPreview.RemoveQuoteMarks | src/pages/Upload.tsx:79 | `replace(/['"]/g, '')` leaves no `'` and no `"`, keeps every other character exactly as often as it occurs, and leaves a header without quote marks unchanged |
| CsvPreview.RemoveQuoteMarksAppend | src/pages/Upload.tsx:79 | removing quote marks from two pieces of a header gives the two results one after the other, so the kept characters stay in order |
| CsvPreview.NormalizeHeader | src/pages/Upload.tsx:79 | the header without its quote marks, lower-cased character by character: as long as the quote-free header, character i the lower case of its character i; so lower case and quote-free, and a header that already is both is unchanged |
| CsvPreview.PreviewHeaders | src/pages/UploadHoldings.tsx:111 | one header per field of the first line, header k being field k normalised |
| CsvPreview.PreviewRows | src/pages/Upload.tsx:80 | min(5, n−1) rows, row k being the parsed line k+1 |
| CsvPreview.ParseCsvContent | src/pages/Upload.tsx:52-83 | fails with "File must have at least a header row and one data row" exactly when there are fewer than two non-blank lines; otherwise the headers are the normalised fields of the first line, the rows are the preview window in file order, and the file name is the selected file's name, or "file" when there is none or its name is empty |
| CsvPreview.DetectColumns | src/pages/Upload.tsx:108-118 | the name column is the first header containing name/company/security, the ticker column the first containing ticker/symbol/code; each is null when no header matches |
| CsvPreview.DetectedColumnsAreFirstMatches | src/pages/UploadHoldings.tsx:140-150 | each detected index is below the header count, its header matches, and no earlier header does |
| UploadForm.Form.constructor | src/pages/Upload.tsx:29-32 | the page starts on its entry step with no file, no preview and both columns null |
| UploadForm.Form.HandleFileChange | src/pages/Upload.tsx:85-141 | a file that fails the type rule changes nothing; an accepted non-CSV file resets both columns; a CSV file gets a preview and detected columns, or its parse error drops the file |
| UploadForm.Form.SelectNameColumn | src/pages/Upload.tsx:334 | choosing a name column changes only that column |
| UploadForm.Form.SelectTickerColumn | src/pages/Upload.tsx:353 | choosing a ticker column changes only that column |
| UploadForm.Form.HandlePreviewNext | src/pages/Upload.tsx:143-156 | without a file, or with a preview missing a column, the step stays; otherwise it becomes the preview step, which is therefore reached only with a file and, when previewed, both columns |
| UploadForm.Form.Back | src/pages/Upload.tsx:491 | the back button returns to the entry step and keeps the page's state valid |
| UploadPage.ProcessRequest | src/pages/Upload.tsx:199-203 | processing is requested exactly when a preview exists and a column is chosen; the ticker column is passed as chosen, and the name column only when it is not 0 |
| UploadPage.ProcessRequestIntended | src/pages/Upload.tsx:199-203 | the same request with the name column passed exactly as chosen |
| UploadPage.NameColumnZeroIsDropped | src/pages/Upload.tsx:202 | as written, a name column at index 0 is left out, so every holding the backend keeps from that request has no name |
| UploadPage.NameColumnZeroIsKept | src/pages/Upload.tsx:202 | with the intended request, a kept row whose first cell is not empty is stored with that cell, stripped, as its name |
| UploadPage.GatedMappingIsProcessed | src/pages/Upload.tsx:143-156 | a mapping that passed the preview gate makes a request whose body names both columns, and the backend's row loop then never raises `IndexError` |
| UploadPage.TickerlessRequestIsSent | src/pages/Upload.tsx:199-201 | a request with a name column but no ticker column is still sent, with a null ticker column |
| UploadHoldingsPage.Extension | src/pages/UploadHoldings.tsx:200 | `split('.').pop()` is the dot-free tail after the last '.', or the whole name when there is none |
| UploadHoldingsPage.StoragePathInjective | src/pages/UploadHoldings.tsx:201 | for ids without '/' and '.', equal storage paths mean the same user, the same portfolio and the same extension |
| UploadHoldingsPage.Submit | src/pages/UploadHoldings.tsx:190-261 | nothing happens without a user, a portfolio and a file; otherwise a storage error, or else an error recording the path, ends the submission with that error's message before either function is called; exactly when neither occurs, the portfolio's `file_path` is set to the storage path `<user>/<portfolio>.<ext>`, both function calls carry that path, and `column_mapping` is sent exactly when a preview exists |
| ProcessPortfolioFile.Cells | supabase/functions/process-portfolio-file/index.ts:87 | a row is its line split on plain ',' with each cell trimmed, one cell per piece |
| ProcessPortfolioFile.Headers | supabase/functions/process-portfolio-file/index.ts:68 | the headers are the first line's pieces, trimmed and lower-cased |
| ProcessPortfolioFile.FindColumns | supabase/functions/process-portfolio-file/index.ts:73-81 | fails with the symbol/ticker error exactly when no header names a symbol; otherwise each column is the first header matching its keywords, below the header count |
| ProcessPortfolioFile.NumberOrUndefined | supabase/functions/process-portfolio-file/index.ts:97-99 | `parseFloat(cell) \|\| undefined` is absent for an unparsable cell and for 0, and otherwise the parsed number |
| ProcessPortfolioFile.KeptLines | supabase/functions/process-portfolio-file/index.ts:86-109 | the data lines that become holdings, in increasing order; line j is among them exactly when it gives a holding |
| ProcessPortfolioFile.ParsedInFileOrder | supabase/functions/process-portfolio-file/index.ts:86-109 | holding k comes from the k-th kept line, so holdings keep file order, and there are at most (non-blank lines − 1) of them |
| ProcessPortfolioFile.KeptLineShape | supabase/functions/process-portfolio-file/index.ts:89 | a line gives a holding exactly when it has at least as many cells as there are headers and a non-empty symbol cell |
| ProcessPortfolioFile.HoldingShape | supabase/functions/process-portfolio-file/index.ts:91-106 | the symbol is the upper-cased cell; the sector is the master's exactly for known symbols; the name comes from the name column, else from the master; the market value is quantity × price exactly when both are present |
| ProcessPortfolioFile.ParseHoldings | supabase/functions/process-portfolio-file/index.ts:86-109 | the row loop pushes exactly the holdings of the kept lines, at most one per data line |
| ProcessPortfolioFile.ToInsert | supabase/functions/process-portfolio-file/index.ts:114-127 | `validated` holds exactly when the symbol is a key of the security master; the status is "Valid" then and "Unknown security - not found in master database" otherwise |
| ProcessPortfolioFile.ToInsertAll | supabase/functions/process-portfolio-file/index.ts:114 | one row to insert per holding, in order |
| ProcessPortfolioFile.ValidCount | supabase/functions/process-portfolio-file/index.ts:148 | the valid count never exceeds the row count |
| ProcessPortfolioFile.CountsAddUp | supabase/functions/process-portfolio-file/index.ts:148-149 | valid plus unvalidated rows equals the rows inserted |
| ProcessPortfolioFile.ReadSheet | supabase/functions/process-portfolio-file/index.ts:67-81 | an empty file fails on `lines[0]` and a file without a symbol header fails with its message; otherwise the non-blank lines, header width and columns |
| ProcessPortfolioFile.DeletePortfolio | supabase/functions/process-portfolio-file/index.ts:130-133 | the delete keeps exactly the rows of other portfolios |
| ProcessPortfolioFile.ProcessFailures | supabase/functions/process-portfolio-file/index.ts:167-179 | every failure answers 400; missing fields, a failed download, an empty file and a missing symbol column leave the table unchanged; a failed insert adds nothing |
| ProcessPortfolioFile.ReplaceSuccess | supabase/functions/process-portfolio-file/index.ts:129-159 | on success, the counts add up to the rows inserted; other portfolios' rows stay; the new rows are all there; unless the delete failed, the portfolio has no other rows |
| ProcessPortfolioFile.ProcessSuccess | supabase/functions/process-portfolio-file/index.ts:45-159 | success needs the fields, a download, a symbol column and no insert error; the rows inserted are those of the sheet, at most one per data line, each validated exactly when the master knows its symbol |
| ProcessPortfolioFile.SheetRowsShape | supabase/functions/process-portfolio-file/index.ts:86-127 | the rows built from a sheet: at most one per data line, all of the requested portfolio, each validated exactly when the security master knows its symbol |
| ProcessPortfolioFile.ColumnMappingIgnored | supabase/functions/process-portfolio-file/index.ts:45 | the request's `column_mapping` never changes the outcome |
| UploadRouter.PathName | backend/app/routers/upload.py:24 | pathlib's final component contains no '/' and is not "." |
| UploadRouter.LastDot | backend/app/routers/upload.py:24 | the position of the last '.', or none when the name has no '.' |
| UploadRouter.SuffixShape | backend/app/routers/upload.py:24 | the suffix is empty exactly when no dot qualifies (neither first nor last character); otherwise it runs from the last dot |
| UploadRouter.FileExtensionShape | backend/app/routers/upload.py:23-24 | the extension is the lower-cased suffix of the final component: empty, or a dot followed by at least one character, with no other dot and no slash |
| UploadRouter.ReadFileData | backend/app/routers/upload.py:31-57 | a non-.csv extension and an empty CSV raise their errors; otherwise the headers are the first row, the rows the rest, and `total_rows` their count |
| UploadRouter.UploadPortfolioFile | backend/app/routers/upload.py:60-122 | 404 for another user's portfolio; 400 for an empty or disallowed name before anything is written; a read error answers 500 and keeps no file; otherwise the portfolio points at the new file and the answer previews at most 10 rows |
| UploadRouter.ClassifyStep | backend/app/routers/upload.py:187-198 | one more header changes a target only when that header feeds the target and its cell parses |
| UploadRouter.LastWriterValue | backend/app/routers/upload.py:187-198 | a target holds the value of the last of the first n columns that writes it |
| UploadRouter.NoWriterNone | backend/app/routers/upload.py:187-198 | a target that none of the first n columns writes stays empty |
| UploadRouter.LastWriterWins | backend/app/routers/upload.py:187-198 | after the header loop, each target holds the value of the last column that writes it, and stays empty when none does |
| UploadRouter.ClassifyColumns | backend/app/routers/upload.py:187-198 | the header loop sets quantity from quantity/shares, price from price-not-market, market value from market-and-value, with a later column overwriting an earlier one |
| UploadRouter.PyIndex | backend/app/routers/upload.py:177-178 | Python indexing succeeds exactly for −len ≤ k < len |
| UploadRouter.CleanSymbolShape | backend/app/routers/upload.py:201-203 | `str(symbol).upper().strip()` is upper case and stripped, and empty exactly when the cell is blank |
| UploadRouter.KeptRowShape | backend/app/routers/upload.py:174-210 | a kept row has a symbol cell and a non-empty, upper-case, stripped symbol; its name is present exactly when the name column applies and its cell is not empty; its amounts are those of the header loop |
| UploadRouter.ProcessAllKeepsRows | backend/app/routers/upload.py:173-213 | the loop raises `IndexError` exactly when some row does; otherwise it keeps exactly the kept rows, in order |
| UploadRouter.KeptHoldingsBound | backend/app/routers/upload.py:173-213 | no more holdings than rows |
| UploadRouter.NonNegativeColumnsNeverFail | backend/app/routers/upload.py:174-178 | with non-negative column indices, no row raises `IndexError` |
| UploadRouter.AddedRowsShape | backend/app/routers/upload.py:201-211 | the added rows are the new holdings, in order, under fresh ids, all of the portfolio, validated False with status "pending" |
| UploadRouter.RebuiltHoldings | backend/app/routers/upload.py:164-213 | after a rebuild the portfolio's holdings are exactly the new ones, each validated False with status "pending"; other portfolios' holdings are unchanged |
| UploadRouter.AddHoldings | backend/app/routers/upload.py:173-213 | the row loop adds exactly the kept rows under fresh ids; an `IndexError` leaves the table as it was |
| UploadRouter.ProcessPortfolioHoldings | backend/app/routers/upload.py:125-227 | 404 for another user's portfolio and 400 without a stored file; a read error, a missing ticker column or an `IndexError` answer 500; every failure leaves the holdings unchanged; success replaces them and reports the count kept |
| VerifyHoldings.SummaryCounts | supabase/functions/verify-holdings/index.ts:114-118 | total and verified holdings both equal max(0, L−1), which is the number of line breaks in the trimmed text; unverified stays 0 and errors stay empty |
| VerifyHoldings.SummaryWarnings | supabase/functions/verify-holdings/index.ts:121-128 | "No holdings found in file" and status "warning" come exactly when the trimmed text has one line, else the status stays "verified"; "No symbol column detected" comes exactly when no first-line field contains "symbol" in any case |
| VerifyHoldings.VerificationResults.constructor | supabase/functions/verify-holdings/index.ts:102-110 | the object starts "verified", with zero counts and no warnings or errors |
| VerifyHoldings.VerificationResults.Check | supabase/functions/verify-holdings/index.ts:112-128 | the basic validation sets the counts and pushes the warnings that apply, as the summary describes |
| VerifyHoldings.Verify | supabase/functions/verify-holdings/index.ts:89-166 | a failed download answers 500 with its message; any other file answers 200 with the summary and "Portfolio verification completed" |
| GenerateRecap.Backtrack | supabase/functions/generate-portfolio-recap/index.ts:134 | the position where `\s*` gives back to let `(.+)` start: the last non-terminator up to j, with only line terminators after it |
| GenerateRecap.MatchAt | supabase/functions/generate-portfolio-recap/index.ts:134 | a match at i needs "Subject:" (any case) at i, so none starts where the word no longer fits, and its capture lies inside the text |
| GenerateRecap.MatchAtShape | supabase/functions/generate-portfolio-recap/index.ts:134 | the regex matched exactly: spaces, then a non-empty capture without line terminators running to a terminator or the end, as far right as greedy `\s*` allows; no match when only terminators follow |
| GenerateRecap.SubjectMatch | supabase/functions/generate-portfolio-recap/index.ts:134 | `match` finds the leftmost position where the regex matches, or reports that none does |
| GenerateRecap.ExtractSubject | supabase/functions/generate-portfolio-recap/index.ts:129-138 | the reassigned subject and content are those of the e-mail split |
| GenerateRecap.UnmatchedText | supabase/functions/generate-portfolio-recap/index.ts:130-131 | when the pattern matches at no position, there is no leftmost match, the subject is "Portfolio Recap: " + name and the content is the generated text unchanged |
| GenerateRecap.MatchedText | supabase/functions/generate-portfolio-recap/index.ts:134-138 | on a match, the subject is the trimmed capture, one line; the content is the text without the match and one optional newline, trimmed |
| GenerateRecap.Preview | supabase/functions/generate-portfolio-recap/index.ts:167 | the first 200 characters of the content followed by "..." |
| GenerateRecap.Prompt | supabase/functions/generate-portfolio-recap/index.ts:85-95 | the instructions are `custom_instructions` when truthy, else the portfolio's; the description falls back to 'No description provided'; the holdings fall back to the no-file text |
| GenerateRecap.CustomInstructionsOverride | supabase/functions/generate-portfolio-recap/index.ts:92 | with truthy custom instructions, the stored instructions do not matter |
| GenerateRecap.HandleGuards | supabase/functions/generate-portfolio-recap/index.ts:16-183 | OPTIONS is a preflight, another non-POST method 405, a body that is not JSON "Internal server error" with 500, an unknown portfolio 404; a failed generation or insert answers 500; only success stores a recap |
| GenerateRecap.HandleSuccess | supabase/functions/generate-portfolio-recap/index.ts:141-173 | a success stores the split subject and content for the requested portfolio at the given time, and answers with that subject and the content's preview |
| Db.SelectKeys | backend/app/routers/portfolios.py:20 | the ids whose rows pass the filter, each once, in increasing order |
| Db.ValuesAt | backend/app/routers/portfolios.py:20 | the rows at the selected ids, in order |
| Db.HoldingAdded | backend/app/models/portfolio_holding.py:10-27 | adding a storable holding of a stored portfolio under a fresh id keeps the tables consistent |
| Db.Database.constructor | backend/app/models/portfolio.py:10-25 | the tables start empty and consistent |
| PortfoliosRouter.ApplyUpdate | backend/app/routers/portfolios.py:80-82 | the `setattr` loop over the sent fields changes exactly those fields |
| PortfoliosRouter.SetAllChangesOnlySupplied | backend/app/routers/portfolios.py:80-82 | every sent field takes the sent value; every other field, including id, owner and file path, keeps its value |
| PortfoliosRouter.OnlySuppliedChangedUnique | backend/app/routers/portfolios.py:80-82 | the row after an update is determined by the old row and the update |
| PortfoliosRouter.EmptyUpdateKeepsRow | backend/app/routers/portfolios.py:80-82 | an update that sends no field leaves the row as it was |
| PortfoliosRouter.UpdateIdempotent | backend/app/routers/portfolios.py:80-82 | sending the same update twice gives the row that sending it once gives |
| PortfoliosRouter.ListPortfolios | backend/app/routers/portfolios.py:15-21 | exactly the caller's portfolios, each once |
| PortfoliosRouter.GetPortfolio | backend/app/routers/portfolios.py:24-41 | the portfolio exactly when the caller owns it, else 404 "Portfolio not found" |
| PortfoliosRouter.CreatePortfolio | backend/app/routers/portfolios.py:44-58 | one new row under a fresh id, owned by the caller, with the request's fields and no file; nothing else changes |
| PortfoliosRouter.UpdatePortfolio | backend/app/routers/portfolios.py:61-87 | 404 unless owned; a null name fails at commit with 500 and stores nothing; otherwise only the sent fields change and only that row |
| PortfoliosRouter.DeletePortfolio | backend/app/routers/portfolios.py:90-110 | 404 unless owned; otherwise the portfolio and exactly its holdings and recaps go, and nothing else |
| HoldingsRouter.SetAllAppend | backend/app/routers/holdings.py:103-105 | running the `setattr` loop over two lists in turn is running it over both |
| HoldingsRouter.SetAllChangesOnlySupplied | backend/app/routers/holdings.py:103-105 | every sent field takes the sent value; id and portfolio never change |
| HoldingsRouter.EmptyUpdateKeepsRow | backend/app/routers/holdings.py:103-105 | an update that sends no field leaves the holding as it was |
| HoldingsRouter.UpdateIdempotent | backend/app/routers/holdings.py:103-105 | sending the same update twice gives the row that sending it once gives |
| HoldingsRouter.ApplyUpdate | backend/app/routers/holdings.py:103-105 | the `setattr` loop changes exactly the sent fields |
| HoldingsRouter.HoldingsOf | backend/app/routers/holdings.py:34-36 | exactly the holdings of the portfolio, each once |
| HoldingsRouter.ListHoldings | backend/app/routers/holdings.py:16-38 | 404 exactly when the caller does not own the portfolio; otherwise exactly its holdings |
| HoldingsRouter.CreateHolding | backend/app/routers/holdings.py:41-68 | 404 unless owned, changing nothing; otherwise one new holding of the path's portfolio under a fresh id, with the request's fields |
| HoldingsRouter.UpdateHolding | backend/app/routers/holdings.py:71-110 | 404 unless the portfolio is owned and the holding belongs to it; a null symbol fails at commit with 500; otherwise only the sent fields of that one holding change |
| HoldingsRouter.DeleteHolding | backend/app/routers/holdings.py:113-146 | the same two 404s; success exactly when both hold, removing that one holding and nothing else |
| RecapsRouter.InsertBySentAt | backend/app/routers/recaps.py:36 | inserting a recap keeps the list newest first, and the result has the same recaps plus the new one |
| RecapsRouter.SortBySentAt | backend/app/routers/recaps.py:36 | `order_by(sent_at.desc())` gives the same recaps, newest first |
| RecapsRouter.RecapsOf | backend/app/routers/recaps.py:34-36 | exactly the recaps of the portfolio, each once |
| RecapsRouter.ListRecaps | backend/app/routers/recaps.py:16-38 | 404 exactly when the caller does not own the portfolio; otherwise its recaps, newest first |
| RecapsRouter.LatestRecap | backend/app/routers/recaps.py:41-69 | 404 unless owned, and 404 "No email recaps found" exactly when the portfolio has none; otherwise one of its recaps that no other recap of it postdates |
| RecapsRouter.CreateRecap | backend/app/routers/recaps.py:72-99 | 404 unless owned, changing nothing; otherwise exactly one new recap of the path's portfolio with the request's subject and content |
| RecapsRouter.StrippedTemplateIsBody | backend/app/routers/recaps.py:122-136 | `strip()` removes exactly the template's leading and trailing newline and indentation |
| RecapsRouter.RecapBodyStartsWithName | backend/app/routers/recaps.py:122-123 | the generated recap opens by naming the portfolio |
| RecapsRouter.RecapBodyStatesDescription | backend/app/routers/recaps.py:129 | the generated recap states the description, or 'No description provided' when it is null or empty |
| RecapsRouter.GenerateRecap | backend/app/routers/recaps.py:102-143 | 404 unless owned; otherwise exactly one new recap with subject "Portfolio Recap: " + name and the stripped template as content |

## Left out

- **Networked services are inputs, not models.** Storage downloads and
  uploads, the Supabase and SQLAlchemy clients, and the hosted AI model
  appear only as the results they hand back: text, an error message, or the
  generated text.
- UploadHoldingsPage.Submit: what the two edge functions answer is not an
  input. A processing error adds a warning toast and a verification error is
  only logged; neither changes what is sent.
- GenerateRecap.Preview: counts characters (Unicode scalar values), while
  `substring(0, 200)` counts UTF-16 code units. The two agree when the first
  200 characters lie in the Basic Multilingual Plane. Otherwise JavaScript
  keeps fewer characters, and may cut a surrogate pair in half.
- **The AI request itself is not modelled.** The system prompt, the model
  name and the `aiData.choices[0]` access are left out. An AI answer of an
  unexpected shape would reach the "Internal server error" branch, which
  the model does not produce.
- **Outer `try` blocks beyond the modelled errors.** An exception in
  library code is not modelled, nor is FastAPI's 500 for any commit failure
  other than a NOT NULL column. Of the "Internal server error" answer of
  `generate-portfolio-recap`, only the case of a body that is not JSON is
  modelled (by `GenerateRecap.Handle`).
- **Numbers.**
  - `parseFloat` and `float` are an uninterpreted function from a cell to
    an optional number.
  - Floating point (NaN, infinities, rounding) is not modelled; the market
    value is an exact real product.
  - The `Numeric` column precisions are not enforced.
- **Spreadsheet reading is not modelled.** Python's `csv.Sniffer` and
  `csv.reader`, and the pandas reading of Excel files, are library code. The
  CSV rows reach the upload route as a given list, or as the error the
  reader raised.
- **Case mapping and white space.**
  - Upper and lower case are ASCII only.
  - JavaScript's and Python's white-space sets are each written out as
    that runtime's `trim`/`strip` defines them; Unicode case folding is
    not modelled.
- **Identifiers and time.**
  - `uuid4()` is a counter, so the ids are distinct but not random.
  - A user is identified by an id.
  - `utcnow()` and `new Date()` are a parameter.
  - When two recaps share a `sent_at`, the order the database gives them
    is not modelled: the model's order is one valid newest-first order.
- **Not modelled at all:**
  - authentication;
  - CORS headers;
  - toasts, navigation and other React rendering;
  - `src/lib/api.ts`;
  - the Python script text inside `verify-holdings`, which is a string
    constant that is never run;
  - the `test_server.py` mock.
- **Per-member gaps:**
  - `VerifyHoldings.Verify`: the `catch (parseError)` branch that sets the
    status "error" is left out. Trimming and splitting text cannot throw,
    so that branch is unreachable.
  - `VerifyHoldings.Verify`: the `script_output` field of the results is
    not modelled.
  - `GenerateRecap.HandleGuards`: a failed download of the portfolio file
    is only logged, and the model treats it like no file (an empty text).
  - `UploadRouter.UploadPortfolioFile`: deleting the file again after a
    read error is modelled as the file never being kept.
  - `UploadRouter.AddHoldings`: the staged session (delete, then add, then
    commit or rollback) is modelled by its effect on the table at commit.
  - `ProcessPortfolioFile.ReadSheet`: for an empty file, the error message
    is the V8 wording of the `TypeError` thrown at `lines[0].split`.
  - `ProcessPortfolioFile.Process`: the holdings table of Supabase is a
    list of rows; database-assigned ids and timestamps are not modelled.
  - `ProcessPortfolioFile.ParseHoldings`: the `|| undefined` for quantity,
    price and weight treats NaN as absent, like any unparsable cell.
  - `UploadForm.Form.HandleFileChange`: a file whose `text()` read fails
    is not modelled.
  - `UploadForm.Form.HandleFileChange`: only the file's text and the
    handler's state changes are modelled, not the toast it shows.

## Findings

| source | as written | input that shows it | evidently intended | confidence | as-written member | corrected member |
|---|---|---|---|---|---|---|
| src/pages/Upload.tsx:202 | `nameColumn: columnMapping.nameColumn \|\| undefined` turns the valid index 0 into `undefined` | a CSV whose first column is "Company Name" (detected as name column 0) with a ticker column 1: the request leaves the name column out and every holding is stored without a name | pass the chosen name column as it is (`?? undefined`), so column 0 is used like any other | not executed | UploadPage.NameColumnZeroIsDropped | UploadPage.NameColumnZeroIsKept |
