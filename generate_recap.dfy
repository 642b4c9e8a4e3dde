/**
 * The `generate-portfolio-recap` function
 * (`supabase/functions/generate-portfolio-recap/index.ts`): it looks up the
 * portfolio, asks a text generator for an e-mail, takes the subject from a
 * `Subject:` line of the answer, stores the recap and answers with a
 * preview.  The portfolio lookup, the file download, the generator's
 * answer, the insert and the clock are inputs.
 */
module GenerateRecap {
  import opened Text

  // ---------------------------------------------------------------------
  // The regular expression /Subject:\s*(.+)/i

  /** The characters JavaScript's `.` does not match. */
  predicate IsLineTerminator(c: char) {
    c == '\n' || c == '\r' || c == '\U{2028}' || c == '\U{2029}'
  }

  /** "Subject:" upper-cased; under the `i` flag a letter matches either case. */
  const SubjectWord := "SUBJECT:"

  /** "Subject:", in any case, starts at position `i`. */
  predicate SubjectAt(g: string, i: nat) {
    i + |SubjectWord| <= |g| && Upper(g[i..i + |SubjectWord|]) == SubjectWord
  }

  /** Where the longest run of `\s` from `p` ends. */
  function SpaceRunEnd(g: string, p: nat): (q: nat)
    requires p <= |g|
    ensures p <= q <= |g|
    ensures forall k :: p <= k < q ==> IsJsSpace(g[k])
    ensures q == |g| || !IsJsSpace(g[q])
    decreases |g| - p
  {
    if p == |g| || !IsJsSpace(g[p]) then p else SpaceRunEnd(g, p + 1)
  }

  /** Where the longest run of `.` from `j` ends: the next line terminator, or the end. */
  function LineEnd(g: string, j: nat): (e: nat)
    requires j <= |g|
    ensures j <= e <= |g|
    ensures forall k :: j <= k < e ==> !IsLineTerminator(g[k])
    ensures e == |g| || IsLineTerminator(g[e])
    decreases |g| - j
  {
    if j == |g| || IsLineTerminator(g[j]) then j else LineEnd(g, j + 1)
  }

  /**
   * The greedy `\s*` giving back one character at a time: tries `j`,
   * `j - 1`, ..., `p` for a position where `.+` can start.
   */
  function Backtrack(g: string, p: nat, j: nat): (r: Option<nat>)
    requires p <= j <= |g|
    ensures r.Some? ==> p <= r.value <= j && r.value < |g| && !IsLineTerminator(g[r.value])
    ensures r.Some? ==> forall k :: r.value < k <= j && k < |g| ==> IsLineTerminator(g[k])
    ensures r.None? ==> forall k :: p <= k <= j && k < |g| ==> IsLineTerminator(g[k])
    decreases j - p
  {
    if j < |g| && !IsLineTerminator(g[j]) then Some(j)
    else if j == p then None
    else Backtrack(g, p, j - 1)
  }

  /** A match: where "Subject:" starts, and where the captured text starts and ends. */
  datatype Match = Match(start: nat, capStart: nat, capEnd: nat)

  /** The match starting at `i`, if any. */
  function MatchAt(g: string, i: nat): (r: Option<Match>)
    ensures r.Some? ==> SubjectAt(g, i) && r.value.start == i && r.value.capStart <= r.value.capEnd <= |g|
    ensures !SubjectAt(g, i) ==> r.None?
    ensures |g| < i + |SubjectWord| ==> r.None?
  {
    if !SubjectAt(g, i) then None
    else
      var p := i + |SubjectWord|;
      var q := SpaceRunEnd(g, p);
      match Backtrack(g, p, q)
      case None => None
      case Some(j) => Some(Match(i, j, LineEnd(g, j)))
  }

  /**
   * What a match at `i` is: "Subject:", white space, then a non-empty
   * captured run without line terminator that reaches the next line
   * terminator; the white space is as long as it can be while leaving a
   * character for the capture.  There is none exactly when "Subject:" is
   * not at `i` or only line terminators follow it.
   */
  lemma MatchAtShape(g: string, i: nat)
    ensures var r := MatchAt(g, i);
      r.Some? ==> (i + |SubjectWord| <= r.value.capStart < r.value.capEnd
        && (forall k :: i + |SubjectWord| <= k < r.value.capStart ==> IsJsSpace(g[k]))
        && (forall k :: r.value.capStart <= k < r.value.capEnd ==> !IsLineTerminator(g[k]))
        && (r.value.capEnd == |g| || IsLineTerminator(g[r.value.capEnd])))
    ensures var r := MatchAt(g, i);
      r.Some? ==> forall j :: (r.value.capStart < j < |g| &&
        (forall k :: i + |SubjectWord| <= k < j ==> IsJsSpace(g[k]))) ==> IsLineTerminator(g[j])
    ensures SubjectAt(g, i) ==>
      (MatchAt(g, i).None? <==> forall k :: i + |SubjectWord| <= k < |g| ==> IsLineTerminator(g[k]))
  {
  }

  /** The leftmost match at or after `from`. */
  function SubjectMatch(g: string, from: nat): (r: Option<Match>)
    ensures r.Some? ==> from <= r.value.start && MatchAt(g, r.value.start) == r
    ensures r.Some? ==> forall i :: from <= i < r.value.start ==> MatchAt(g, i).None?
    ensures r.None? ==> forall i :: from <= i ==> MatchAt(g, i).None?
    decreases |g| - from
  {
    if from >= |g| then None
    else
      var m := MatchAt(g, from);
      if m.Some? then m else SubjectMatch(g, from + 1)
  }

  // ---------------------------------------------------------------------
  // Subject and content

  datatype Email = Email(subject: string, content: string)

  function DefaultSubject(name: string): string {
    "Portfolio Recap: " + name
  }

  /** The end of the text `replace` removes: the match and one '\n' after it, if there is one. */
  function RemovedEnd(g: string, m: Match): nat
    requires m.capEnd <= |g|
  {
    if m.capEnd < |g| && g[m.capEnd] == '\n' then m.capEnd + 1 else m.capEnd
  }

  /**
   * Subject and content of the generated text: without a match, the
   * default subject and the text itself; with one, the captured text
   * trimmed, and the text without the match (and a '\n' after it) trimmed.
   */
  function SplitEmail(g: string, name: string): Email {
    match SubjectMatch(g, 0)
    case None => Email(DefaultSubject(name), g)
    case Some(m) =>
      Email(Trim(g[m.capStart..m.capEnd], JavaScript), Trim(g[..m.start] + g[RemovedEnd(g, m)..], JavaScript))
  }

  /** The `let` variables `subject` and `content`, reassigned when the text has a match. */
  method ExtractSubject(generated: string, name: string) returns (subject: string, content: string)
    ensures Email(subject, content) == SplitEmail(generated, name)
  {
    subject := DefaultSubject(name);
    content := generated;
    var m := SubjectMatch(generated, 0);
    if m.Some? {
      subject := Trim(generated[m.value.capStart..m.value.capEnd], JavaScript);
      content := Trim(generated[..m.value.start] + generated[RemovedEnd(generated, m.value)..], JavaScript);
    }
  }

  /**
   * Text the pattern matches nowhere (no "Subject:" in any case, or only
   * line terminators after each one) keeps the default subject and stays
   * as it is.
   */
  lemma UnmatchedText(g: string, name: string)
    requires forall i :: 0 <= i < |g| ==> MatchAt(g, i).None?
    ensures SubjectMatch(g, 0).None?
    ensures SplitEmail(g, name) == Email(DefaultSubject(name), g)
  {
  }

  /**
   * With a match: the subject is the captured text trimmed, so it has no
   * line break and no white space at either end; the match is the first
   * "Subject:" followed by something other than line terminators; the
   * content is the rest of the text, trimmed.
   */
  lemma MatchedText(g: string, name: string)
    requires SubjectMatch(g, 0).Some?
    ensures var m := SubjectMatch(g, 0).value;
      var e := SplitEmail(g, name);
      SubjectAt(g, m.start) && (forall i :: 0 <= i < m.start ==> MatchAt(g, i).None?)
      && m.capStart < m.capEnd
      && e.subject == Trim(g[m.capStart..m.capEnd], JavaScript) && IsTrimmed(e.subject, JavaScript)
      && (forall k :: 0 <= k < |e.subject| ==> !IsLineTerminator(e.subject[k]))
      && e.content == Trim(g[..m.start] + g[RemovedEnd(g, m)..], JavaScript) && IsTrimmed(e.content, JavaScript)
  {
    var m := SubjectMatch(g, 0).value;
    MatchAtShape(g, m.start);
    TrimKeepsLine(g, m.capStart, m.capEnd);
  }

  /** Trimming a piece of text without line terminators gives text without line terminators. */
  lemma TrimKeepsLine(g: string, a: nat, b: nat)
    requires a <= b <= |g| && forall k :: a <= k < b ==> !IsLineTerminator(g[k])
    ensures forall k :: 0 <= k < |Trim(g[a..b], JavaScript)| ==> !IsLineTerminator(Trim(g[a..b], JavaScript)[k])
  {
    var s := g[a..b];
    var t := Trim(s, JavaScript);
    forall k | 0 <= k < |t|
      ensures !IsLineTerminator(t[k])
    {
      assert t[k] in multiset(s);
      var i :| 0 <= i < |s| && s[i] == t[k];
      assert s[i] == g[a + i];
    }
  }

  /** `content.substring(0, 200) + '...'`. */
  function Preview(content: string): (r: string)
    ensures |r| == (if |content| < 200 then |content| else 200) + 3
    ensures r[..|r| - 3] == content[..|r| - 3] && r[|r| - 3..] == "..."
  {
    Take(content, 200) + "..."
  }

  // ---------------------------------------------------------------------
  // The request

  /** The columns of the `portfolios` row the function reads. */
  datatype PortfolioRow = PortfolioRow(name: string, description: Option<string>, filePath: Option<string>,
                                       emailInstructions: Option<string>, emailFrequency: Option<string>)

  datatype RecapRequest = RecapRequest(portfolioId: string, customInstructions: Option<string>)

  /** A JavaScript truthy string: present and not empty. */
  predicate Truthy(s: Option<string>) {
    s.Some? && s.value != ""
  }

  /** A value in a template string; `null` is written out as "null". */
  function Shown(s: Option<string>): string {
    if s.Some? then s.value else "null"
  }

  const NoDescription := "No description provided"
  const NoFile := "No detailed portfolio file provided"

  /** The values the prompt is built from. */
  datatype PromptFields = PromptFields(name: string, description: string, holdings: string, instructions: string,
                                       frequency: string)

  /** The stored file's text: empty when there is no file path or the download fails. */
  function FileText(p: PortfolioRow, download: Result<string>): string {
    if Truthy(p.filePath) && download.Ok? then download.value else ""
  }

  /**
   * The prompt's values: non-empty custom instructions override the
   * portfolio's; a missing or empty description and file text have
   * fallbacks.
   */
  function Prompt(p: PortfolioRow, custom: Option<string>, fileText: string): (r: PromptFields)
    ensures Truthy(custom) ==> r.instructions == custom.value
    ensures !Truthy(custom) ==> r.instructions == Shown(p.emailInstructions)
    ensures r.description == if Truthy(p.description) then p.description.value else NoDescription
    ensures r.holdings == if fileText == "" then NoFile else fileText
  {
    PromptFields(p.name,
                 if Truthy(p.description) then p.description.value else NoDescription,
                 if fileText != "" then fileText else NoFile,
                 if Truthy(custom) then custom.value else Shown(p.emailInstructions),
                 Shown(p.emailFrequency))
  }

  /** Custom instructions, when given, make the portfolio's own instructions irrelevant. */
  lemma CustomInstructionsOverride(p1: PortfolioRow, p2: PortfolioRow, custom: Option<string>, t: string)
    requires Truthy(custom) && p1.name == p2.name && p1.description == p2.description
    requires p1.emailFrequency == p2.emailFrequency
    ensures Prompt(p1, custom, t) == Prompt(p2, custom, t)
  {
  }

  datatype RecapReply =
    | Preflight
    | MethodNotAllowed
    | NotFound
    | Failure(error: string)
    | Generated(recapId: string, subject: string, preview: string)
  {
    function Status(): nat {
      match this
      case Preflight => 200
      case MethodNotAllowed => 405
      case NotFound => 404
      case Failure(_) => 500
      case Generated(_, _, _) => 200
    }
  }

  /** The `email_recaps` row inserted. */
  datatype StoredRecap = StoredRecap(portfolioId: string, subject: string, content: string, sentAt: string)

  /** The answer, the prompt sent to the generator (if any) and the row stored (if any). */
  datatype RecapOutcome = RecapOutcome(reply: RecapReply, prompt: Option<PromptFields>, stored: Option<StoredRecap>)

  const GenerationFailed := "Failed to generate recap content"
  const StoreFailed := "Failed to store recap"
  const InternalError := "Internal server error"

  /**
   * The handler.  `body` is `None` when the request body is not JSON;
   * `insert` is the new row's id or the insert's error.
   */
  function Handle(httpMethod: string, body: Option<RecapRequest>, portfolio: Option<PortfolioRow>,
                  download: Result<string>, generated: Result<string>, insert: Result<string>, now: string)
    : RecapOutcome
  {
    if httpMethod == "OPTIONS" then RecapOutcome(Preflight, None, None)
    else if httpMethod != "POST" then RecapOutcome(MethodNotAllowed, None, None)
    else if body.None? then RecapOutcome(Failure(InternalError), None, None)
    else if portfolio.None? then RecapOutcome(NotFound, None, None)
    else
      var p := portfolio.value;
      var prompt := Prompt(p, body.value.customInstructions, FileText(p, download));
      if generated.Err? then RecapOutcome(Failure(GenerationFailed), Some(prompt), None)
      else
        var e := SplitEmail(generated.value, p.name);
        if insert.Err? then RecapOutcome(Failure(StoreFailed), Some(prompt), None)
        else
          RecapOutcome(Generated(insert.value, e.subject, Preview(e.content)), Some(prompt),
                       Some(StoredRecap(body.value.portfolioId, e.subject, e.content, now)))
  }

  /**
   * The guards: a preflight gets the empty answer, any other method but
   * POST 405, a body that is not JSON "Internal server error" with 500, an
   * unknown portfolio 404; a failing generator or insert 500;
   * and no failure stores a recap.
   */
  lemma HandleGuards(httpMethod: string, body: Option<RecapRequest>, portfolio: Option<PortfolioRow>,
                     download: Result<string>, generated: Result<string>, insert: Result<string>, now: string)
    ensures var o := Handle(httpMethod, body, portfolio, download, generated, insert, now);
      (httpMethod == "OPTIONS" ==> o.reply == Preflight)
      && (httpMethod != "OPTIONS" && httpMethod != "POST" ==> o.reply == MethodNotAllowed && o.reply.Status() == 405)
      && (httpMethod == "POST" && body.None? ==> o.reply == Failure(InternalError) && o.reply.Status() == 500)
      && (httpMethod == "POST" && body.Some? && portfolio.None? ==> o.reply == NotFound && o.reply.Status() == 404)
      && (httpMethod == "POST" && body.Some? && portfolio.Some? && generated.Err? ==>
            o.reply == Failure(GenerationFailed))
      && (httpMethod == "POST" && body.Some? && portfolio.Some? && generated.Ok? && insert.Err? ==>
            o.reply == Failure(StoreFailed))
      && (o.stored.Some? <==> o.reply.Generated?)
      && (o.prompt.Some? <==> httpMethod == "POST" && body.Some? && portfolio.Some?)
  {
  }

  /**
   * A generated recap is stored for the requested portfolio with the
   * subject and content taken from the generated text, at the given time;
   * the answer repeats the stored subject and previews the content.
   */
  lemma HandleSuccess(httpMethod: string, body: Option<RecapRequest>, portfolio: Option<PortfolioRow>,
                      download: Result<string>, generated: Result<string>, insert: Result<string>, now: string)
    requires Handle(httpMethod, body, portfolio, download, generated, insert, now).reply.Generated?
    ensures httpMethod == "POST" && body.Some? && portfolio.Some? && generated.Ok? && insert.Ok?
    ensures var o := Handle(httpMethod, body, portfolio, download, generated, insert, now);
      var e := SplitEmail(generated.value, portfolio.value.name);
      o.reply.Status() == 200 && o.reply.recapId == insert.value
      && o.stored == Some(StoredRecap(body.value.portfolioId, e.subject, e.content, now))
      && o.reply.subject == o.stored.value.subject
      && o.reply.preview == Preview(o.stored.value.content)
  {
  }
}
