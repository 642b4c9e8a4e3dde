/**
 * `backend/app/routers/recaps.py`: the e-mail recaps of one portfolio.
 * Every route first requires the caller to own the portfolio.  The clock
 * (`datetime.utcnow`, the default of `sent_at`) is a parameter.
 */
module RecapsRouter {
  import opened Text
  import opened Db

  /** `EmailRecapCreate`. */
  datatype RecapCreate = RecapCreate(subject: string, content: string)

  const NoRecaps := "No email recaps found for this portfolio"

  predicate SortedBySentDesc(rs: seq<Recap>) {
    forall i, j :: 0 <= i < j < |rs| ==> rs[i].sentAt >= rs[j].sentAt
  }

  lemma SortedCons(h: Recap, tail: seq<Recap>)
    requires SortedBySentDesc(tail) && (tail == [] || tail[0].sentAt <= h.sentAt)
    ensures SortedBySentDesc([h] + tail)
  {
    assert forall j :: 0 <= j < |tail| ==> tail[j].sentAt <= h.sentAt;
  }

  /** Puts `x` into a list ordered newest first. */
  function InsertBySentAt(x: Recap, rs: seq<Recap>): (r: seq<Recap>)
    requires SortedBySentDesc(rs)
    ensures SortedBySentDesc(r)
    ensures multiset(r) == multiset(rs) + multiset{x}
    ensures |r| == |rs| + 1 && (r[0] == x || (rs != [] && r[0] == rs[0]))
  {
    if rs == [] then [x]
    else if x.sentAt >= rs[0].sentAt then
      SortedCons(x, rs);
      [x] + rs
    else
      var tail := InsertBySentAt(x, rs[1..]);
      KeepsHead(rs, x, tail);
      [rs[0]] + tail
  }

  /** `x` goes behind the newer head `rs[0]`, into the rest of the list. */
  lemma KeepsHead(rs: seq<Recap>, x: Recap, tail: seq<Recap>)
    requires rs != [] && SortedBySentDesc(rs) && x.sentAt < rs[0].sentAt
    requires SortedBySentDesc(tail) && multiset(tail) == multiset(rs[1..]) + multiset{x}
    requires tail != [] && (tail[0] == x || (rs[1..] != [] && tail[0] == rs[1..][0]))
    ensures SortedBySentDesc([rs[0]] + tail)
    ensures multiset([rs[0]] + tail) == multiset(rs) + multiset{x}
  {
    assert rs == [rs[0]] + rs[1..];
    assert multiset(rs) == multiset{rs[0]} + multiset(rs[1..]);
    SortedCons(rs[0], tail);
  }

  /** `order_by(EmailRecap.sent_at.desc())`: the same recaps, newest first. */
  function SortBySentAt(rs: seq<Recap>): (r: seq<Recap>)
    ensures SortedBySentDesc(r)
    ensures multiset(r) == multiset(rs)
  {
    if rs == [] then []
    else
      assert rs == [rs[0]] + rs[1..];
      InsertBySentAt(rs[0], SortBySentAt(rs[1..]))
  }

  /** The recaps whose `portfolio_id` is `pid`, each once. */
  function RecapsOf(db: Database, pid: Id): (r: seq<Recap>)
    reads db
    requires db.Valid()
    ensures forall x :: x in r <==> x in db.recaps.Values && x.portfolioId == pid
    ensures forall i, j :: 0 <= i < j < |r| ==> r[i].id != r[j].id
  {
    var ids := SelectKeys(db.recaps, (x: Recap) => x.portfolioId == pid, db.nextId);
    var r := ValuesAt(db.recaps, ids);
    assert forall x :: x in db.recaps.Values && x.portfolioId == pid ==> x == r[IndexOf(ids, x.id)];
    r
  }

  /** `get_portfolio_recaps`: 404 unless the caller owns the portfolio, else its recaps, newest first. */
  function ListRecaps(db: Database, user: Id, pid: Id): (r: Response<seq<Recap>>)
    reads db
    requires db.Valid()
    ensures r.Failure? <==> !db.Owns(user, pid)
    ensures r.Failure? ==> r == Failure(404, PortfolioNotFound)
    ensures r.Success? ==> SortedBySentDesc(r.value)
    ensures r.Success? ==> forall x :: x in r.value <==> x in db.recaps.Values && x.portfolioId == pid
    ensures r.Success? ==> multiset(r.value) == multiset(RecapsOf(db, pid))
  {
    if !db.Owns(user, pid) then Failure(404, PortfolioNotFound)
    else
      var sorted := SortBySentAt(RecapsOf(db, pid));
      assert forall x :: x in sorted <==> x in multiset(RecapsOf(db, pid));
      Success(sorted)
  }

  /**
   * `get_latest_recap`: the first recap in newest-first order, i.e. one
   * whose `sent_at` no other recap of the portfolio exceeds.
   */
  function LatestRecap(db: Database, user: Id, pid: Id): (r: Response<Recap>)
    reads db
    requires db.Valid()
    ensures !db.Owns(user, pid) ==> r == Failure(404, PortfolioNotFound)
    ensures db.Owns(user, pid) ==>
      (r.Failure? <==> forall x :: x in db.recaps.Values ==> x.portfolioId != pid)
    ensures db.Owns(user, pid) && r.Failure? ==> r == Failure(404, NoRecaps)
    ensures r.Success? ==> r.value in db.recaps.Values && r.value.portfolioId == pid
    ensures r.Success? ==>
      forall x :: x in db.recaps.Values && x.portfolioId == pid ==> x.sentAt <= r.value.sentAt
  {
    match ListRecaps(db, user, pid)
    case Failure(status, detail) => Failure(status, detail)
    case Success(sorted) =>
      if sorted == [] then Failure(404, NoRecaps)
      else
        assert forall x :: x in sorted ==> sorted[0].sentAt >= x.sentAt by {
          forall x | x in sorted ensures sorted[0].sentAt >= x.sentAt {
            var i :| 0 <= i < |sorted| && sorted[i] == x;
          }
        }
        Success(sorted[0])
  }

  /** `create_recap`: a new recap of portfolio `pid`, sent now. */
  method CreateRecap(db: Database, user: Id, pid: Id, data: RecapCreate, now: int) returns (r: Response<Recap>)
    requires db.Valid()
    modifies db`recaps, db`nextId
    ensures db.Valid()
    ensures !old(db.Owns(user, pid)) ==>
      r == Failure(404, PortfolioNotFound) && db.recaps == old(db.recaps) && db.nextId == old(db.nextId)
    ensures old(db.Owns(user, pid)) ==>
      r.Success? && r.value.id !in old(db.recaps)
      && r.value == Recap(r.value.id, pid, data.subject, data.content, now)
      && db.recaps == old(db.recaps)[r.value.id := r.value]
  {
    if !db.Owns(user, pid) {
      return Failure(404, PortfolioNotFound);
    }
    var x := Recap(db.nextId, pid, data.subject, data.content, now);
    db.recaps := db.recaps[x.id := x];
    db.nextId := db.nextId + 1;
    r := Success(x);
  }

  /** `portfolio.description or 'No description provided'`: null and "" both fall back. */
  function DescriptionOrDefault(d: Option<string>): string {
    if d.Some? && d.value != "" then d.value else "No description provided"
  }

  /** The indentation around the f-string of `generate_recap`: a newline and four spaces. */
  const Indent := "\n    "
  const Opening := "Portfolio Recap for "
  const Summary := "\n\n    This is an automated recap of your portfolio performance."
  const NameLabel := "\n\n    Portfolio Details:\n    - Name: "
  const DescriptionLabel := "\n    - Description: "
  const Closing := "\n\n    Generated automatically by Scout Portfolio Tracker" + "."

  /** The first line of the recap: it names the portfolio. */
  function Heading(name: string): string {
    Opening + name
  }

  /** The summary sentence and the name line. */
  function Details(name: string): string {
    Summary + NameLabel + name
  }

  /** The description line, with the fallback. */
  function DescriptionLine(description: Option<string>): string {
    DescriptionLabel + DescriptionOrDefault(description)
  }

  /**
   * The text between the f-string's first and last line breaks, which is
   * what `strip()` leaves of it (`StrippedTemplateIsBody`).
   */
  function RecapBody(name: string, description: Option<string>): string {
    Heading(name) + Details(name) + DescriptionLine(description) + Closing
  }

  /** The f-string of `generate_recap` before `.strip()`, indentation included. */
  function RecapTemplate(name: string, description: Option<string>): string {
    Indent + RecapBody(name, description) + Indent
  }

  lemma BodyEnds(name: string, description: Option<string>)
    ensures RecapBody(name, description) != []
    ensures RecapBody(name, description)[0] == 'P'
    ensures RecapBody(name, description)[|RecapBody(name, description)| - 1] == '.'
  {
    var h := Heading(name);
    var x := h + Details(name) + DescriptionLine(description);
    assert Opening[0] == 'P';
    assert h[0] == 'P';
    assert x[0] == 'P';
    assert Closing[|Closing| - 1] == '.';
    assert RecapBody(name, description) == x + Closing;
  }

  /**
   * `recap_content.strip()`: stripping the template removes exactly the
   * leading and trailing newline and indentation, whatever the name and
   * description, and leaves the body.
   */
  lemma StrippedTemplateIsBody(name: string, description: Option<string>)
    ensures Trim(RecapTemplate(name, description), Python) == RecapBody(name, description)
  {
    BodyEnds(name, description);
    assert AllSpace(Indent, Python);
    TrimPadded(Indent, RecapBody(name, description), Indent, Python);
  }

  /** The recap opens with the portfolio's name. */
  lemma RecapBodyStartsWithName(name: string, description: Option<string>)
    ensures OccursAt(RecapBody(name, description), Heading(name), 0)
  {
    OccursAtStart(Heading(name), Details(name), DescriptionLine(description), Closing);
  }

  lemma OccursAtStart(t: string, b: string, c: string, d: string)
    ensures OccursAt(t + b + c + d, t, 0)
  {
    assert (t + b + c + d)[..|t|] == t;
  }

  /** The recap states the description, or 'No description provided' when there is none. */
  lemma RecapBodyStatesDescription(name: string, description: Option<string>)
    ensures Contains(RecapBody(name, description), DescriptionLine(description))
  {
    var c := RecapBody(name, description);
    var head := Heading(name) + Details(name);
    var d := DescriptionLine(description);
    assert c == head + d + Closing;
    assert c[|head|..|head| + |d|] == d;
    assert OccursAt(c, d, |head|);
  }

  /**
   * `generate_recap`: 404 unless the caller owns the portfolio; otherwise
   * exactly one recap is added, with the fixed subject and content.
   */
  method GenerateRecap(db: Database, user: Id, pid: Id, now: int) returns (r: Response<Recap>)
    requires db.Valid()
    modifies db`recaps, db`nextId
    ensures db.Valid()
    ensures !old(db.Owns(user, pid)) ==>
      r == Failure(404, PortfolioNotFound) && db.recaps == old(db.recaps) && db.nextId == old(db.nextId)
    ensures old(db.Owns(user, pid)) ==>
      var p := old(db.portfolios[pid]);
      r.Success? && r.value.id !in old(db.recaps)
      && r.value == Recap(r.value.id, pid, "Portfolio Recap: " + p.name.value,
                          RecapBody(p.name.value, p.description), now)
      && db.recaps == old(db.recaps)[r.value.id := r.value]
  {
    if !db.Owns(user, pid) {
      return Failure(404, PortfolioNotFound);
    }
    var p := db.portfolios[pid];
    var x := Recap(db.nextId, pid, "Portfolio Recap: " + p.name.value,
                   RecapBody(p.name.value, p.description), now);
    db.recaps := db.recaps[x.id := x];
    db.nextId := db.nextId + 1;
    r := Success(x);
  }
}
