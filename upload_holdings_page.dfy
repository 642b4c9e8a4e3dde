/**
 * `src/pages/UploadHoldings.tsx`, `handleSubmit`: the file goes to storage
 * under a path built from the user, the portfolio and the file's
 * extension; the portfolio row records that path; then the two functions
 * that process and verify the file are called with it.
 */
module UploadHoldingsPage {
  import opened Text
  import opened CsvPreview
  import opened UploadForm

  /**
   * `name.split('.').pop()`: the text after the last dot, or the whole name
   * when it has no dot.
   */
  function Extension(name: string): (r: string)
    ensures '.' !in r
    ensures EndsWith(name, r)
    ensures '.' !in name ==> r == name
    ensures '.' in name ==> |r| < |name| && name[|name| - |r| - 1] == '.'
  {
    var p := Split(name, '.');
    SplitPieces(name, '.');
    JoinSplit(name, '.');
    var r := p[|p| - 1];
    if |p| == 1 then
      assert multiset(name)['.'] == 0;
      r
    else
      var front := Join(p[..|p| - 1], '.');
      assert p[..|p| - 1] + [r] == p;
      assert name == front + ['.'] + r;
      assert name[|name| - |r| - 1] == '.';
      assert multiset(name)['.'] > 0;
      r
  }

  /** `` `${user.id}/${portfolio.id}.${fileExt}` ``. */
  function StoragePath(userId: string, portfolioId: string, fileName: string): string {
    userId + "/" + portfolioId + "." + Extension(fileName)
  }

  /** In `a + [sep] + r`, with no `sep` in `a`, the first `sep` is at position `|a|`. */
  lemma FirstSeparator(a: string, r: string, sep: char)
    requires sep !in a
    ensures (a + [sep] + r)[|a|] == sep
    ensures forall k :: 0 <= k < |a| ==> (a + [sep] + r)[k] != sep
  {
    assert forall k :: 0 <= k < |a| ==> (a + [sep] + r)[k] == a[k];
  }

  /** Two texts each followed by a separator they do not contain can be told apart. */
  lemma SeparatedPrefix(a1: string, r1: string, a2: string, r2: string, sep: char)
    requires sep !in a1 && sep !in a2
    requires a1 + [sep] + r1 == a2 + [sep] + r2
    ensures a1 == a2 && r1 == r2
  {
    var s := a1 + [sep] + r1;
    FirstSeparator(a1, r1, sep);
    FirstSeparator(a2, r2, sep);
    assert |a1| == |a2|;
    assert a1 == s[..|a1|] == a2;
    assert r1 == s[|a1| + 1..] == r2;
  }

  /**
   * For ids without '/' and '.' (as uuids are), the storage path tells the
   * user, the portfolio and the extension apart: different uploads of
   * different users or portfolios never share a path, and a new upload
   * of the same portfolio with the same extension replaces the old file.
   */
  lemma StoragePathInjective(u1: string, p1: string, n1: string, u2: string, p2: string, n2: string)
    requires '/' !in u1 && '/' !in u2 && '.' !in p1 && '.' !in p2
    requires StoragePath(u1, p1, n1) == StoragePath(u2, p2, n2)
    ensures u1 == u2 && p1 == p2 && Extension(n1) == Extension(n2)
  {
    PathPartsDetermined(u1, p1, Extension(n1), u2, p2, Extension(n2));
  }

  lemma PathPartsDetermined(u1: string, p1: string, e1: string, u2: string, p2: string, e2: string)
    requires '/' !in u1 && '/' !in u2 && '.' !in p1 && '.' !in p2
    requires u1 + "/" + p1 + "." + e1 == u2 + "/" + p2 + "." + e2
    ensures u1 == u2 && p1 == p2 && e1 == e2
  {
    var r1 := p1 + ['.'] + e1;
    var r2 := p2 + ['.'] + e2;
    assert u1 + "/" + p1 + "." + e1 == u1 + ['/'] + r1;
    assert u2 + "/" + p2 + "." + e2 == u2 + ['/'] + r2;
    SeparatedPrefix(u1, r1, u2, r2, '/');
    SeparatedPrefix(p1, e1, p2, e2, '.');
  }

  /** The body sent to `process-portfolio-file`. */
  datatype ProcessFileBody = ProcessFileBody(portfolioId: string, filePath: string, columnMapping: Option<ColumnMapping>)

  /** The body sent to `verify-holdings`. */
  datatype VerifyBody = VerifyBody(portfolioId: string, filePath: string)

  /** The update of the portfolio row that records where its file is. */
  datatype PathUpdate = PathUpdate(portfolioId: string, filePath: string)

  /** What a submission that got through does: store the file, record its path, call both functions. */
  datatype Submission = Submission(storagePath: string, update: PathUpdate, process: ProcessFileBody, verify: VerifyBody)

  /**
   * How `handleSubmit` ends: it returns at once without a user, a portfolio
   * or a file; a storage error stops it before the path is recorded, an
   * error updating the portfolio stops it before either function is
   * called (both with "Upload failed" and the error's message); otherwise
   * both functions are called, whatever they answer.
   */
  datatype SubmitOutcome =
    | Ignored
    | UploadFailed(message: string)
    | UpdateFailed(message: string)
    | Submitted(submission: Submission)

  /**
   * `handleSubmit`, given what storage and the database answer
   * (`uploadError`, `updateError`).  The column mapping is sent only when
   * the page shows a preview.
   */
  function Submit(userId: Option<string>, portfolioId: Option<string>, file: Option<SelectedFile>,
                  preview: Option<Preview>, mapping: ColumnMapping,
                  uploadError: Option<string>, updateError: Option<string>): (r: SubmitOutcome)
    ensures r.Ignored? <==> userId.None? || portfolioId.None? || file.None?
    ensures r.UploadFailed? <==> userId.Some? && portfolioId.Some? && file.Some? && uploadError.Some?
    ensures r.UpdateFailed? <==>
      userId.Some? && portfolioId.Some? && file.Some? && uploadError.None? && updateError.Some?
    ensures r.Submitted? <==>
      userId.Some? && portfolioId.Some? && file.Some? && uploadError.None? && updateError.None?
    ensures r.UploadFailed? ==> r.message == uploadError.value
    ensures r.UpdateFailed? ==> r.message == updateError.value
    ensures r.Submitted? ==>
      var sub := r.submission;
      sub.storagePath == StoragePath(userId.value, portfolioId.value, file.value.name)
      && sub.update == PathUpdate(portfolioId.value, sub.storagePath)
      && sub.process.filePath == sub.storagePath && sub.verify.filePath == sub.storagePath
      && sub.process.portfolioId == portfolioId.value && sub.verify.portfolioId == portfolioId.value
    ensures r.Submitted? ==> (r.submission.process.columnMapping.Some? <==> preview.Some?)
    ensures r.Submitted? && preview.Some? ==> r.submission.process.columnMapping == Some(mapping)
  {
    if userId.None? || portfolioId.None? || file.None? then Ignored
    else if uploadError.Some? then UploadFailed(uploadError.value)
    else if updateError.Some? then UpdateFailed(updateError.value)
    else
      var path := StoragePath(userId.value, portfolioId.value, file.value.name);
      Submitted(Submission(path,
                           PathUpdate(portfolioId.value, path),
                           ProcessFileBody(portfolioId.value, path, if preview.Some? then Some(mapping) else None),
                           VerifyBody(portfolioId.value, path)))
  }
}
