/**
 * The browser-side CSV preview of the two upload pages (`src/pages/Upload.tsx`
 * and `src/pages/UploadHoldings.tsx` hold the same code): the quote-aware
 * line splitter, the header normaliser, the five-row preview window, the
 * keyword detection of the name and ticker columns and the file-type rule.
 */
module CsvPreview {
  import opened Text

  /** The variables of `parseCSVLine` between two characters: `result`, `current`, `inQuotes`. */
  datatype Scan = Scan(fields: seq<string>, current: string, inQuotes: bool)

  /** One pass of the loop body of `parseCSVLine` on character `c`. */
  function Step(st: Scan, c: char): Scan {
    if c == '"' then st.(inQuotes := !st.inQuotes)
    else if c == ',' && !st.inQuotes then Scan(st.fields + [Trim(st.current, JavaScript)], "", st.inQuotes)
    else st.(current := st.current + [c])
  }

  /** The loop state after reading all of `line`. */
  function Run(line: string): Scan
    decreases |line|
  {
    if |line| == 0 then Scan([], "", false) else Step(Run(line[..|line| - 1]), line[|line| - 1])
  }

  /** What `parseCSVLine(line)` returns. */
  function ParseLine(line: string): seq<string> {
    var st := Run(line);
    st.fields + [Trim(st.current, JavaScript)]
  }

  /** `parseCSVLine`: a two-state machine over the characters of `line`. */
  method ParseCsvLine(line: string) returns (result: seq<string>)
    ensures result == ParseLine(line)
    ensures |result| == |UnquotedCommas(line)| + 1
  {
    result := [];
    var current := "";
    var inQuotes := false;
    for i := 0 to |line|
      invariant Run(line[..i]) == Scan(result, current, inQuotes)
    {
      assert line[..i + 1][..i] == line[..i];
      var c := line[i];
      if c == '"' {
        inQuotes := !inQuotes;
      } else if c == ',' && !inQuotes {
        result := result + [Trim(current, JavaScript)];
        current := "";
      } else {
        current := current + [c];
      }
    }
    assert line[..|line|] == line;
    result := result + [Trim(current, JavaScript)];
    FieldCount(line);
  }

  /** The number of double quotes in `s`. */
  function Quotes(s: string): nat
    decreases |s|
  {
    if |s| == 0 then 0 else Quotes(s[..|s| - 1]) + (if s[|s| - 1] == '"' then 1 else 0)
  }

  /** Position `i` of `line` holds a comma outside double quotes. */
  predicate IsUnquotedComma(line: string, i: int) {
    0 <= i < |line| && line[i] == ',' && Quotes(line[..i]) % 2 == 0
  }

  /** The positions of the commas that are outside double quotes. */
  function UnquotedCommas(line: string): set<nat> {
    set i: nat | i < |line| && IsUnquotedComma(line, i)
  }

  lemma UnquotedCommasSnoc(line: string)
    requires |line| > 0
    ensures UnquotedCommas(line) ==
      UnquotedCommas(line[..|line| - 1]) + (if IsUnquotedComma(line, |line| - 1) then {|line| - 1} else {})
  {
    var p := line[..|line| - 1];
    forall i: nat | i < |p| ensures IsUnquotedComma(line, i) == IsUnquotedComma(p, i) {
      assert line[..i] == p[..i];
    }
  }

  /** `inQuotes` is set exactly when an odd number of quotes has been read. */
  lemma {:induction false} InQuotesParity(line: string)
    ensures Run(line).inQuotes <==> Quotes(line) % 2 == 1
    decreases |line|
  {
    if |line| > 0 {
      var p := line[..|line| - 1];
      InQuotesParity(p);
      QuoteStep(line);
      OddStep(Quotes(p), line[|line| - 1] == '"');
    }
  }

  /** The last character toggles `inQuotes` and adds to the quote count exactly when it is a double quote. */
  lemma QuoteStep(line: string)
    requires |line| > 0
    ensures var p, quote := line[..|line| - 1], line[|line| - 1] == '"';
      (Run(line).inQuotes <==> Run(p).inQuotes != quote)
      && Quotes(line) == Quotes(p) + (if quote then 1 else 0)
  {
  }

  lemma OddStep(n: nat, quote: bool)
    ensures (n + (if quote then 1 else 0)) % 2 == 1 <==> (n % 2 == 1) != quote
  {
  }

  /** One field is completed per comma outside quotes. */
  lemma {:induction false} CompletedFields(line: string)
    ensures |Run(line).fields| == |UnquotedCommas(line)|
    decreases |line|
  {
    if |line| > 0 {
      var p := line[..|line| - 1];
      CompletedFields(p);
      InQuotesParity(p);
      UnquotedCommasSnoc(line);
      assert line[..|line| - 1] == p;
    }
  }

  /** `parseCSVLine` returns one field more than there are commas outside double quotes. */
  lemma FieldCount(line: string)
    ensures |ParseLine(line)| == |UnquotedCommas(line)| + 1
  {
    CompletedFields(line);
  }

  /** No field of `Run` ever holds a double quote: quotes only toggle `inQuotes`. */
  lemma {:induction false} RunHasNoQuotes(line: string)
    ensures '"' !in Run(line).current
    ensures forall k :: 0 <= k < |Run(line).fields| ==> '"' !in Run(line).fields[k]
    decreases |line|
  {
    if |line| > 0 {
      var p := line[..|line| - 1];
      RunHasNoQuotes(p);
      var st := Run(p);
      if line[|line| - 1] == ',' && !st.inQuotes && '"' in Trim(st.current, JavaScript) {
        TrimSubset(st.current, JavaScript, '"');
      }
    }
  }

  /** Every field is trimmed and free of double quotes. */
  lemma FieldsTrimmedWithoutQuotes(line: string)
    ensures forall f :: f in ParseLine(line) ==> '"' !in f && IsTrimmed(f, JavaScript)
  {
    RunHasNoQuotes(line);
    var st := Run(line);
    if '"' in Trim(st.current, JavaScript) {
      TrimSubset(st.current, JavaScript, '"');
    }
    forall f | f in ParseLine(line) ensures '"' !in f && IsTrimmed(f, JavaScript) {
      var k :| 0 <= k < |ParseLine(line)| && ParseLine(line)[k] == f;
      if k < |st.fields| {
        FieldsTrimmed(line, k);
      }
    }
  }

  /** Completed fields are trimmed when they are pushed. */
  lemma {:induction false} FieldsTrimmed(line: string, k: nat)
    requires k < |Run(line).fields|
    ensures IsTrimmed(Run(line).fields[k], JavaScript)
    decreases |line|
  {
    var p := line[..|line| - 1];
    if k < |Run(p).fields| {
      FieldsTrimmed(p, k);
    }
  }

  /** Trims every element. */
  function TrimAll(xs: seq<string>, rt: Runtime): (r: seq<string>)
    ensures |r| == |xs|
    ensures forall k :: 0 <= k < |xs| ==> r[k] == Trim(xs[k], rt)
  {
    seq(|xs|, k requires 0 <= k < |xs| => Trim(xs[k], rt))
  }

  lemma TrimAllSnoc(xs: seq<string>, x: string, rt: Runtime)
    ensures TrimAll(xs + [x], rt) == TrimAll(xs, rt) + [Trim(x, rt)]
  {
  }

  /** On a line with no double quote the machine never enters quotes and follows a plain split. */
  lemma {:induction false} RunWithoutQuotes(line: string)
    requires '"' !in line
    ensures FollowsSplit(line)
    decreases |line|
  {
    if |line| > 0 {
      var p := line[..|line| - 1];
      var c := line[|line| - 1];
      assert line == p + [c];
      RunWithoutQuotes(p);
      if c == ',' {
        CommaFollowsSplit(p);
      } else {
        CharFollowsSplit(p, c);
      }
    }
  }

  /** The state after `line` is the plain split of `line`: its trimmed pieces before the last, and the last one open. */
  predicate FollowsSplit(line: string) {
    var pieces := Split(line, ',');
    Run(line) == Scan(TrimAll(pieces[..|pieces| - 1], JavaScript), pieces[|pieces| - 1], false)
  }

  lemma CommaFollowsSplit(p: string)
    requires FollowsSplit(p)
    ensures FollowsSplit(p + [','])
  {
    var line := p + [','];
    assert line[..|line| - 1] == p;
    SplitSnoc(p, ',', ',');
    var q := Split(p, ',');
    var front, last := q[..|q| - 1], q[|q| - 1];
    assert (q + [""])[..|q|] == q;
    assert q == front + [last];
    TrimAllSnoc(front, last, JavaScript);
    OutsideComma(Scan(TrimAll(front, JavaScript), last, false));
  }

  lemma CharFollowsSplit(p: string, c: char)
    requires c != '"' && c != ',' && FollowsSplit(p)
    ensures FollowsSplit(p + [c])
  {
    var line := p + [c];
    assert line[..|line| - 1] == p;
    SplitSnoc(p, c, ',');
    var q := Split(p, ',');
    var front, last := q[..|q| - 1], q[|q| - 1];
    var r := front + [last + [c]];
    assert r[..|r| - 1] == front;
    AppendStep(Scan(TrimAll(front, JavaScript), last, false), c);
  }

  lemma OutsideComma(st: Scan)
    requires !st.inQuotes
    ensures Step(st, ',') == Scan(st.fields + [Trim(st.current, JavaScript)], "", false)
  {
  }

  /**
   * Without double quotes, the preview parser agrees with splitting on every
   * comma and trimming each piece, which is how the server-side function and
   * the verifier split lines.
   */
  lemma QuoteFreeLineIsPlainSplit(line: string)
    requires '"' !in line
    ensures ParseLine(line) == TrimAll(Split(line, ','), JavaScript)
  {
    RunWithoutQuotes(line);
    var pieces := Split(line, ',');
    assert pieces == pieces[..|pieces| - 1] + [pieces[|pieces| - 1]];
    TrimAllSnoc(pieces[..|pieces| - 1], pieces[|pieces| - 1], JavaScript);
  }

  /** The parser's loop resumed from state `st` over more text. */
  function RunFrom(st: Scan, s: string): Scan
    decreases |s|
  {
    if |s| == 0 then st else Step(RunFrom(st, s[..|s| - 1]), s[|s| - 1])
  }

  /** The state the loop starts in. */
  const Start := Scan([], "", false)

  lemma {:induction false} RunIsRunFrom(line: string)
    ensures Run(line) == RunFrom(Start, line)
    decreases |line|
  {
    if |line| > 0 {
      RunIsRunFrom(line[..|line| - 1]);
    }
  }

  lemma RunFromOne(st: Scan, c: char)
    ensures RunFrom(st, [c]) == Step(st, c)
  {
    assert [c][..0] == [];
  }

  /** Running over `a + b` is running over `a`, then over `b`. */
  lemma {:induction false} RunFromAppend(st: Scan, a: string, b: string)
    ensures RunFrom(st, a + b) == RunFrom(RunFrom(st, a), b)
    decreases |b|
  {
    if |b| == 0 {
      assert a + b == a;
    } else {
      var front, c := b[..|b| - 1], b[|b| - 1];
      var ab := a + b;
      calc {
        RunFrom(st, ab);
        { assert ab[..|ab| - 1] == a + front && ab[|ab| - 1] == c; }
        Step(RunFrom(st, a + front), c);
        { RunFromAppend(st, a, front); }
        Step(RunFrom(RunFrom(st, a), front), c);
        RunFrom(RunFrom(st, a), b);
      }
    }
  }

  /** Text with no quote, and no comma unless inside quotes, is appended to the open field. */
  lemma {:induction false} RunFromText(st: Scan, x: string)
    requires '"' !in x && (st.inQuotes || ',' !in x)
    ensures RunFrom(st, x) == st.(current := st.current + x)
    decreases |x|
  {
    if |x| > 0 {
      var p := x[..|x| - 1];
      var c := x[|x| - 1];
      assert x == p + [c];
      assert c in x;
      assert forall d :: d in p ==> d in x;
      RunFromText(st, p);
      AppendStep(st.(current := st.current + p), c);
    }
  }

  /** A character that is not a quote, and not a comma outside quotes, is appended to the open field. */
  lemma AppendStep(st: Scan, c: char)
    requires c != '"' && (st.inQuotes || c != ',')
    ensures Step(st, c) == st.(current := st.current + [c])
  {
  }

  /** A field as written in a line: its text, and whether it is wrapped in double quotes. */
  datatype Cell = Cell(text: string, quoted: bool)

  /** A field the parser reads back: no quote inside it, and no comma unless it is quoted. */
  predicate Readable(c: Cell) {
    '"' !in c.text && (c.quoted || ',' !in c.text)
  }

  function Render(c: Cell): string {
    if c.quoted then ['"'] + c.text + ['"'] else c.text
  }

  /** The cells written one after another, separated by commas. */
  function CellLine(cells: seq<Cell>): string
    requires |cells| >= 1
    decreases |cells|
  {
    if |cells| == 1 then Render(cells[0])
    else CellLine(cells[..|cells| - 1]) + [','] + Render(cells[|cells| - 1])
  }

  function Texts(cells: seq<Cell>): (r: seq<string>)
    ensures |r| == |cells|
    ensures forall k :: 0 <= k < |cells| ==> r[k] == cells[k].text
  {
    seq(|cells|, k requires 0 <= k < |cells| => cells[k].text)
  }

  lemma TextsSnoc(cells: seq<Cell>)
    requires |cells| >= 1
    ensures Texts(cells) == Texts(cells[..|cells| - 1]) + [cells[|cells| - 1].text]
  {
  }

  /** A readable cell, started outside quotes with nothing open, leaves its text open and the quotes closed. */
  lemma RunFromCell(fields: seq<string>, c: Cell)
    requires Readable(c)
    ensures RunFrom(Scan(fields, "", false), Render(c)) == Scan(fields, c.text, false)
  {
    var st := Scan(fields, "", false);
    if c.quoted {
      RunFromAppend(st, ['"'] + c.text, ['"']);
      RunFromAppend(st, ['"'], c.text);
      RunFromOne(st, '"');
      RunFromText(Scan(fields, "", true), c.text);
      RunFromOne(Scan(fields, c.text, true), '"');
    } else {
      RunFromText(st, c.text);
    }
  }

  /** After a line of readable cells, every cell but the last is a trimmed field and the last one is open. */
  lemma {:induction false} CellLineRun(cells: seq<Cell>)
    requires |cells| >= 1
    requires forall k :: 0 <= k < |cells| ==> Readable(cells[k])
    ensures RunFrom(Start, CellLine(cells)) ==
      Scan(TrimAll(Texts(cells[..|cells| - 1]), JavaScript), cells[|cells| - 1].text, false)
    decreases |cells|
  {
    if |cells| == 1 {
      CellLineFirst(cells);
    } else {
      CellLineRun(cells[..|cells| - 1]);
      CellLineStep(cells);
    }
  }

  lemma CellLineFirst(cells: seq<Cell>)
    requires |cells| == 1 && Readable(cells[0])
    ensures RunFrom(Start, CellLine(cells)) ==
      Scan(TrimAll(Texts(cells[..|cells| - 1]), JavaScript), cells[|cells| - 1].text, false)
  {
    assert cells[..0] == [];
    RunFromCell([], cells[0]);
  }

  /** One more cell: the open field is completed by the comma, and the new cell is left open. */
  lemma CellLineStep(cells: seq<Cell>)
    requires |cells| >= 2 && Readable(cells[|cells| - 1])
    requires var init := cells[..|cells| - 1];
      RunFrom(Start, CellLine(init)) == Scan(TrimAll(Texts(init[..|init| - 1]), JavaScript), init[|init| - 1].text, false)
    ensures RunFrom(Start, CellLine(cells)) ==
      Scan(TrimAll(Texts(cells[..|cells| - 1]), JavaScript), cells[|cells| - 1].text, false)
  {
    var init, last := cells[..|cells| - 1], cells[|cells| - 1];
    var fields := TrimAll(Texts(init), JavaScript);
    CommaStep(init);
    RunFromAppend(Start, CellLine(init) + [','], Render(last));
    RunFromCell(fields, last);
  }

  /** The comma after a line of cells completes its last cell. */
  lemma CommaStep(init: seq<Cell>)
    requires |init| >= 1
    requires RunFrom(Start, CellLine(init)) ==
      Scan(TrimAll(Texts(init[..|init| - 1]), JavaScript), init[|init| - 1].text, false)
    ensures RunFrom(Start, CellLine(init) + [',']) == Scan(TrimAll(Texts(init), JavaScript), "", false)
  {
    RunFromAppend(Start, CellLine(init), [',']);
    RunFromOne(RunFrom(Start, CellLine(init)), ',');
    TrimAllTextsSnoc(init);
  }

  /**
   * Quoted fields keep their commas: a line of fields, each quote-free and
   * each either wrapped in double quotes or comma-free, parses back to the
   * fields' trimmed texts, one per field.
   */
  lemma QuotedFieldsKeepCommas(cells: seq<Cell>)
    requires |cells| >= 1
    requires forall k :: 0 <= k < |cells| ==> Readable(cells[k])
    ensures ParseLine(CellLine(cells)) == TrimAll(Texts(cells), JavaScript)
  {
    var n := |cells|;
    var line := CellLine(cells);
    RunIsRunFrom(line);
    CellLineRun(cells);
    TrimAllTextsSnoc(cells);
  }

  lemma TrimAllTextsSnoc(cells: seq<Cell>)
    requires |cells| >= 1
    ensures TrimAll(Texts(cells), JavaScript) ==
      TrimAll(Texts(cells[..|cells| - 1]), JavaScript) + [Trim(cells[|cells| - 1].text, JavaScript)]
  {
    TextsSnoc(cells);
    TrimAllSnoc(Texts(cells[..|cells| - 1]), cells[|cells| - 1].text, JavaScript);
  }

  /** Three fields, the middle one quoted: `t,"n",q`. */
  lemma QuotedMiddleField(t: string, n: string, q: string)
    requires Readable(Cell(t, false)) && Readable(Cell(n, true)) && Readable(Cell(q, false))
    ensures ParseLine(t + ",\"" + n + "\"," + q) == [Trim(t, JavaScript), Trim(n, JavaScript), Trim(q, JavaScript)]
  {
    var cells := [Cell(t, false), Cell(n, true), Cell(q, false)];
    assert forall k :: 0 <= k < |cells| ==> Readable(cells[k]) by {
      assert |cells| == 3 && cells[0] == Cell(t, false) && cells[1] == Cell(n, true) && cells[2] == Cell(q, false);
    }
    QuotedFieldsKeepCommas(cells);
    MiddleQuotedLine(t, n, q);
    MiddleQuotedFields(t, n, q);
  }

  lemma MiddleQuotedLine(t: string, n: string, q: string)
    ensures CellLine([Cell(t, false), Cell(n, true), Cell(q, false)]) == t + ",\"" + n + "\"," + q
  {
    var one := [Cell(t, false)];
    var two := one + [Cell(n, true)];
    CellLineSnoc(one, Cell(n, true));
    CellLineSnoc(two, Cell(q, false));
    assert two + [Cell(q, false)] == [Cell(t, false), Cell(n, true), Cell(q, false)];
  }

  lemma MiddleQuotedFields(t: string, n: string, q: string)
    ensures TrimAll(Texts([Cell(t, false), Cell(n, true), Cell(q, false)]), JavaScript)
      == [Trim(t, JavaScript), Trim(n, JavaScript), Trim(q, JavaScript)]
  {
    var fields := TrimAll(Texts([Cell(t, false), Cell(n, true), Cell(q, false)]), JavaScript);
    assert fields[0] == Trim(t, JavaScript) && fields[1] == Trim(n, JavaScript) && fields[2] == Trim(q, JavaScript);
    ThreeElements(fields, Trim(t, JavaScript), Trim(n, JavaScript), Trim(q, JavaScript));
  }

  lemma ThreeElements(xs: seq<string>, a: string, b: string, c: string)
    requires |xs| == 3 && xs[0] == a && xs[1] == b && xs[2] == c
    ensures xs == [a, b, c]
  {
  }

  lemma CellLineSnoc(cells: seq<Cell>, c: Cell)
    requires |cells| >= 1
    ensures CellLine(cells + [c]) == CellLine(cells) + [','] + Render(c)
  {
    assert (cells + [c])[..|cells|] == cells;
  }

  /** `AAPL,"Apple, Inc.",10` is three fields. */
  lemma QuotedCompanyName()
    ensures ParseLine("AAPL" + ",\"" + "Apple, Inc." + "\"," + "10") == ["AAPL", "Apple, Inc.", "10"]
  {
    TickerField();
    CompanyField();
    QuantityField();
    QuotedMiddleField("AAPL", "Apple, Inc.", "10");
  }

  lemma TickerField()
    ensures Readable(Cell("AAPL", false)) && Trim("AAPL", JavaScript) == "AAPL"
  {
    LiteralField("AAPL", ['A', 'A', 'P', 'L'], false);
  }

  lemma CompanyField()
    ensures Readable(Cell("Apple, Inc.", true)) && Trim("Apple, Inc.", JavaScript) == "Apple, Inc."
  {
    LiteralField("Apple, Inc.", ['A', 'p', 'p', 'l', 'e', ',', ' ', 'I', 'n', 'c', '.'], true);
  }

  lemma QuantityField()
    ensures Readable(Cell("10", false)) && Trim("10", JavaScript) == "10"
  {
    LiteralField("10", ['1', '0'], false);
  }

  /** A field spelt out character by character reads back as itself. */
  lemma LiteralField(s: string, chars: seq<char>, quoted: bool)
    requires s == chars && |chars| > 0
    requires forall i :: 0 <= i < |chars| ==> chars[i] != '"' && (quoted || chars[i] != ',')
    requires !IsJsSpace(chars[0]) && !IsJsSpace(chars[|chars| - 1])
    ensures Readable(Cell(s, quoted)) && Trim(s, JavaScript) == s
  {
    TrimTrimmed(s, JavaScript);
  }

  /** The preview shown before upload. */
  datatype Preview = Preview(headers: seq<string>, rows: seq<seq<string>>, fileName: string)

  const TooShortMessage := "File must have at least a header row and one data row"

  /** The lines of a file that `parseCSVContent` looks at. */
  function ContentLines(content: string): seq<string> {
    NonBlank(Split(content, '\n'))
  }

  /**
   * `h.replace(/['"]/g, '')`: every `'` and `"` goes, every other character
   * stays, as often as it occurs (and in order, by `RemoveQuoteMarksAppend`).
   */
  function RemoveQuoteMarks(h: string): (r: string)
    ensures '"' !in r && '\'' !in r
    ensures |r| <= |h|
    ensures '"' !in h && '\'' !in h ==> r == h
    ensures forall c :: c != '"' && c != '\'' ==> multiset(r)[c] == multiset(h)[c]
  {
    if |h| == 0 then ""
    else
      var rest := RemoveQuoteMarks(h[1..]);
      assert h == [h[0]] + h[1..];
      if h[0] == '"' || h[0] == '\'' then rest else [h[0]] + rest
  }

  /** The replacement works piece by piece, so the kept characters keep their order. */
  lemma {:induction false} RemoveQuoteMarksAppend(a: string, b: string)
    ensures RemoveQuoteMarks(a + b) == RemoveQuoteMarks(a) + RemoveQuoteMarks(b)
    decreases |a|
  {
    if |a| == 0 {
      assert a + b == b;
    } else {
      assert (a + b)[0] == a[0];
      assert (a + b)[1..] == a[1..] + b;
      RemoveQuoteMarksAppend(a[1..], b);
    }
  }

  /**
   * A header as `parseCSVContent` normalises it: the quote marks removed,
   * then each remaining character lower-cased; a header that is already
   * quote-free and lower case is left as it is.
   */
  function NormalizeHeader(h: string): (r: string)
    ensures '"' !in r && '\'' !in r && IsLower(r)
    ensures |r| == |RemoveQuoteMarks(h)|
    ensures forall i :: 0 <= i < |r| ==> r[i] == LowerChar(RemoveQuoteMarks(h)[i])
    ensures '"' !in h && '\'' !in h && IsLower(h) ==> r == h
  {
    var q := RemoveQuoteMarks(h);
    var r := Lower(q);
    forall i | 0 <= i < |r| ensures r[i] != '"' && r[i] != '\'' {
      assert q[i] in q;
    }
    r
  }

  /** The headers of the preview: each field of the first line normalised. */
  function PreviewHeaders(first: seq<string>): (hs: seq<string>)
    ensures |hs| == |first|
    ensures forall k :: 0 <= k < |first| ==> hs[k] == NormalizeHeader(first[k])
    ensures forall h :: h in hs ==> '"' !in h && '\'' !in h && IsLower(h)
  {
    seq(|first|, k requires 0 <= k < |first| => NormalizeHeader(first[k]))
  }

  /** The rows of the preview: the lines after the header, five at most, each parsed. */
  function PreviewRows(lines: seq<string>): (rows: seq<seq<string>>)
    requires |lines| >= 1
    ensures |rows| == (if |lines| - 1 < 5 then |lines| - 1 else 5)
    ensures forall k :: 0 <= k < |rows| ==> rows[k] == ParseLine(lines[k + 1])
  {
    var window := Take(lines[1..], 5);
    assert forall k :: 0 <= k < |window| ==> window[k] == lines[k + 1];
    seq(|window|, k requires 0 <= k < |window| => ParseLine(window[k]))
  }

  /**
   * `parseCSVContent`: at least two non-blank lines, the first one gives the
   * headers and the next five at most are previewed.  `currentName` is the
   * name of the file the page held when the handler started (`file?.name`).
   */
  function ParseCsvContent(content: string, currentName: Option<string>): (r: Result<Preview>)
    ensures r.Err? <==> |ContentLines(content)| < 2
    ensures r.Err? ==> r.error == TooShortMessage
    ensures r.Ok? ==> var lines := ContentLines(content);
      && |r.value.rows| == (if |lines| - 1 < 5 then |lines| - 1 else 5)
      && (forall k :: 0 <= k < |r.value.rows| ==> r.value.rows[k] == ParseLine(lines[k + 1]))
      && r.value.headers == PreviewHeaders(ParseLine(lines[0]))
      && |r.value.headers| == |UnquotedCommas(lines[0])| + 1
      && (forall h :: h in r.value.headers ==> '"' !in h && '\'' !in h && IsLower(h))
    ensures r.Ok? && currentName.Some? && currentName.value != "" ==> r.value.fileName == currentName.value
    ensures r.Ok? && (currentName.None? || currentName.value == "") ==> r.value.fileName == "file"
  {
    var lines := ContentLines(content);
    if |lines| < 2 then Err(TooShortMessage)
    else
      FieldCount(lines[0]);
      var name := if currentName.Some? && currentName.value != "" then currentName.value else "file";
      Ok(Preview(PreviewHeaders(ParseLine(lines[0])), PreviewRows(lines), name))
  }

  /** The detected columns; `None` stands for `null`. */
  datatype ColumnMapping = ColumnMapping(nameColumn: Option<nat>, tickerColumn: Option<nat>)

  const NameKeys: seq<string> := ["name", "company", "security"]
  const TickerKeys: seq<string> := ["ticker", "symbol", "code"]

  /** The auto-detection in `handleFileChange`. */
  function DetectColumns(headers: seq<string>): (m: ColumnMapping)
    ensures m.nameColumn == FirstMatch(headers, NameKeys)
    ensures m.tickerColumn == FirstMatch(headers, TickerKeys)
  {
    ColumnMapping(FirstMatch(headers, NameKeys), FirstMatch(headers, TickerKeys))
  }

  /** A detected column is a valid header index. */
  predicate InRange(m: ColumnMapping, width: nat) {
    (m.nameColumn.Some? ==> m.nameColumn.value < width)
    && (m.tickerColumn.Some? ==> m.tickerColumn.value < width)
  }

  /**
   * Detection picks the least header index holding one of the keywords,
   * and never an index outside the headers.
   */
  lemma DetectedColumnsAreFirstMatches(headers: seq<string>)
    ensures InRange(DetectColumns(headers), |headers|)
    ensures var m := DetectColumns(headers);
      && (m.nameColumn.Some? ==>
            MatchesAny(headers[m.nameColumn.value], NameKeys)
            && forall j :: 0 <= j < m.nameColumn.value ==> !MatchesAny(headers[j], NameKeys))
      && (m.nameColumn.None? <==> forall j :: 0 <= j < |headers| ==> !MatchesAny(headers[j], NameKeys))
      && (m.tickerColumn.Some? ==>
            MatchesAny(headers[m.tickerColumn.value], TickerKeys)
            && forall j :: 0 <= j < m.tickerColumn.value ==> !MatchesAny(headers[j], TickerKeys))
      && (m.tickerColumn.None? <==> forall j :: 0 <= j < |headers| ==> !MatchesAny(headers[j], TickerKeys))
  {
  }

  /** The file-type rule of `handleFileChange`. */
  predicate AcceptsFile(mimeType: string, name: string) {
    var lower := Lower(name);
    Contains(mimeType, "spreadsheet") || Contains(mimeType, "excel")
    || EndsWith(lower, ".xlsx") || EndsWith(lower, ".xls") || EndsWith(lower, ".csv")
  }

  /** Only CSV files get a preview. */
  predicate IsCsvName(name: string) {
    EndsWith(Lower(name), ".csv")
  }
}
