/**
 * The `verify-holdings` function
 * (`supabase/functions/verify-holdings/index.ts`): it downloads the stored
 * file and fills in a results object from the file's line count and its
 * first line.  The download is an input: the text or the error it yields.
 */
module VerifyHoldings {
  import opened Text

  const Verified := "verified"
  const Warning := "warning"
  const NoHoldings := "No holdings found in file"
  const NoSymbolColumn := "No symbol column detected"
  const Completed := "Portfolio verification completed"

  /** The '\n'-separated lines of the trimmed text, blank ones included. */
  function Lines(content: string): seq<string> {
    Split(Trim(content, JavaScript), '\n')
  }

  /** Some comma-separated field of the first line contains "symbol", in any case. */
  predicate HasSymbolHeader(content: string) {
    var headers := Split(Lines(content)[0], ',');
    exists k :: 0 <= k < |headers| && Contains(Lower(headers[k]), "symbol")
  }

  /** A snapshot of `verificationResults`. */
  datatype Results = Results(status: string, totalHoldings: int, verifiedHoldings: int, unverifiedHoldings: int,
                             warnings: seq<string>, errors: seq<string>)

  /** The object as it is created, before the file is looked at. */
  const Initial := Results(Verified, 0, 0, 0, [], [])

  /** `Math.max(0, n)`. */
  function AtLeastZero(n: int): int {
    if n > 0 then n else 0
  }

  /**
   * The results after the basic validation: both counts set from the line
   * count, the status changed and each warning pushed where it applies.
   */
  function Checked(before: Results, content: string): Results {
    var lines := Lines(content);
    before.(
      totalHoldings := AtLeastZero(|lines| - 1),
      verifiedHoldings := AtLeastZero(|lines| - 1),
      status := if |lines| < 2 then Warning else before.status,
      warnings := before.warnings + (if |lines| < 2 then [NoHoldings] else [])
                                  + (if HasSymbolHeader(content) then [] else [NoSymbolColumn]))
  }

  /** What the function reports for a file's text. */
  function Summary(content: string): Results {
    Checked(Initial, content)
  }

  /**
   * The counts: the holdings are the lines after the first, all of them
   * counted as verified and none as unverified, and never negative, since
   * even empty text has one line.
   */
  lemma SummaryCounts(content: string)
    ensures var r := Summary(content);
      r.totalHoldings == r.verifiedHoldings == |Lines(content)| - 1 >= 0
      && r.totalHoldings == multiset(Trim(content, JavaScript))['\n']
      && r.unverifiedHoldings == 0 && r.errors == []
  {
    SplitPieces(Trim(content, JavaScript), '\n');
  }

  /**
   * The warnings: "No holdings found in file", and the status "warning",
   * exactly when the trimmed text has no line break; "No symbol column
   * detected" exactly when no field of the first line mentions "symbol".
   */
  lemma SummaryWarnings(content: string)
    ensures var r := Summary(content);
      (NoHoldings in r.warnings <==> '\n' !in Trim(content, JavaScript))
      && (r.status == Warning <==> '\n' !in Trim(content, JavaScript))
      && (r.status != Warning ==> r.status == Verified)
      && (NoSymbolColumn in r.warnings <==> !HasSymbolHeader(content))
      && |r.warnings| <= 2
  {
    SplitPieces(Trim(content, JavaScript), '\n');
    var r := Summary(content);
    if HasSymbolHeader(content) {
      assert NoSymbolColumn !in r.warnings by {
        assert r.warnings == [] || r.warnings == [NoHoldings];
      }
    }
  }

  /** The results object the function fills in. */
  class VerificationResults {
    var status: string
    var totalHoldings: int
    var verifiedHoldings: int
    var unverifiedHoldings: int
    var warnings: seq<string>
    var errors: seq<string>

    function Snapshot(): Results
      reads this
    {
      Results(status, totalHoldings, verifiedHoldings, unverifiedHoldings, warnings, errors)
    }

    constructor ()
      ensures Snapshot() == Initial
    {
      status := Verified;
      totalHoldings := 0;
      verifiedHoldings := 0;
      unverifiedHoldings := 0;
      warnings := [];
      errors := [];
    }

    /**
     * The basic validation: sets both counts from the line count, and
     * pushes the warnings (the first with the status change) that apply.
     */
    method Check(content: string)
      modifies this
      ensures Snapshot() == Checked(old(Snapshot()), content)
    {
      ghost var before := Snapshot();
      var lines := Lines(content);
      totalHoldings := AtLeastZero(|lines| - 1);
      verifiedHoldings := AtLeastZero(|lines| - 1);
      if |lines| < 2 {
        warnings := warnings + [NoHoldings];
        status := Warning;
      }
      ghost var counted := warnings;
      if !HasSymbolHeader(content) {
        warnings := warnings + [NoSymbolColumn];
      }
      assert warnings == counted + (if HasSymbolHeader(content) then [] else [NoSymbolColumn]);
      assert Snapshot() == before.(totalHoldings := totalHoldings, verifiedHoldings := verifiedHoldings,
                                   status := status, warnings := warnings);
    }
  }

  /** The answer: the results on success, an error with status 500 otherwise. */
  datatype Reply = Done(results: Results, message: string) | Failed(error: string)
  {
    function Status(): nat {
      if Done? then 200 else 500
    }
  }

  /**
   * The function: a failed download answers 500 with its message; any
   * other file is answered with the results `Summary` describes.
   */
  method Verify(download: Result<string>) returns (reply: Reply)
    ensures download.Err? ==> reply == Failed("Failed to download file: " + download.error) && reply.Status() == 500
    ensures download.Ok? ==> reply == Done(Summary(download.value), Completed) && reply.Status() == 200
  {
    if download.Err? {
      return Failed("Failed to download file: " + download.error);
    }
    var results := new VerificationResults();
    results.Check(download.value);
    reply := Done(results.Snapshot(), Completed);
  }
}
