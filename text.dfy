/**
 * String primitives shared by the browser pages (JavaScript), the edge
 * functions (JavaScript on Deno) and the FastAPI backend (Python).
 *
 * Strings are `seq<char>`.  White space is written out per runtime because
 * JavaScript's `trim()`/`\s` and Python's `str.strip()` disagree on a few
 * code points.  Case mapping is ASCII only.
 */
module Text {

  datatype Option<+T> = None | Some(value: T)

  /** A value, or the message of the error the source throws or returns instead. */
  datatype Result<+T> = Ok(value: T) | Err(error: string)

  /** The runtime whose library function is being modelled. */
  datatype Runtime = JavaScript | Python

  /** JavaScript WhiteSpace and LineTerminator code points (`\s`, `String.prototype.trim`). */
  predicate IsJsSpace(c: char) {
    c == '\t' || c == '\n' || c == '\U{B}' || c == '\U{C}' || c == '\r' || c == ' '
    || c == '\U{A0}' || c == '\U{1680}' || ('\U{2000}' <= c <= '\U{200A}')
    || c == '\U{2028}' || c == '\U{2029}' || c == '\U{202F}' || c == '\U{205F}'
    || c == '\U{3000}' || c == '\U{FEFF}'
  }

  /** Code points for which Python's `str.isspace()` holds (what `str.strip()` removes). */
  predicate IsPySpace(c: char) {
    c == '\t' || c == '\n' || c == '\U{B}' || c == '\U{C}' || c == '\r'
    || ('\U{1C}' <= c <= '\U{1F}') || c == ' ' || c == '\U{85}'
    || c == '\U{A0}' || c == '\U{1680}' || ('\U{2000}' <= c <= '\U{200A}')
    || c == '\U{2028}' || c == '\U{2029}' || c == '\U{202F}' || c == '\U{205F}'
    || c == '\U{3000}'
  }

  predicate IsSpace(c: char, rt: Runtime) {
    match rt
    case JavaScript => IsJsSpace(c)
    case Python => IsPySpace(c)
  }

  /** No white space at either end. */
  predicate IsTrimmed(s: string, rt: Runtime) {
    s == [] || (!IsSpace(s[0], rt) && !IsSpace(s[|s| - 1], rt))
  }

  predicate AllSpace(s: string, rt: Runtime) {
    forall i :: 0 <= i < |s| ==> IsSpace(s[i], rt)
  }

  /** The end of the run of white space that starts at `i`. */
  function SpaceRunFrom(s: string, rt: Runtime, i: nat): (n: nat)
    requires i <= |s|
    ensures i <= n <= |s|
    ensures forall k :: i <= k < n ==> IsSpace(s[k], rt)
    ensures n == |s| || !IsSpace(s[n], rt)
    decreases |s| - i
  {
    if i < |s| && IsSpace(s[i], rt) then SpaceRunFrom(s, rt, i + 1) else i
  }

  /** The start of the run of white space that ends at `j`. */
  function SpaceRunTo(s: string, rt: Runtime, j: nat): (n: nat)
    requires j <= |s|
    ensures n <= j
    ensures forall k :: n <= k < j ==> IsSpace(s[k], rt)
    ensures n == 0 || !IsSpace(s[n - 1], rt)
  {
    if j > 0 && IsSpace(s[j - 1], rt) then SpaceRunTo(s, rt, j - 1) else j
  }

  function TrimStart(s: string, rt: Runtime): (r: string)
    ensures |r| <= |s| && r == s[|s| - |r|..]
    ensures r == [] || !IsSpace(r[0], rt)
    ensures AllSpace(s[..|s| - |r|], rt)
    ensures multiset(r) <= multiset(s)
  {
    var n := SpaceRunFrom(s, rt, 0);
    assert s == s[..n] + s[n..];
    s[n..]
  }

  function TrimEnd(s: string, rt: Runtime): (r: string)
    ensures |r| <= |s| && r == s[..|r|]
    ensures r == [] || !IsSpace(r[|r| - 1], rt)
    ensures AllSpace(s[|r|..], rt)
    ensures multiset(r) <= multiset(s)
  {
    var n := SpaceRunTo(s, rt, |s|);
    assert s == s[..n] + s[n..];
    s[..n]
  }

  /** `s.trim()` in JavaScript, `s.strip()` in Python. */
  function Trim(s: string, rt: Runtime): (r: string)
    ensures IsTrimmed(r, rt)
    ensures multiset(r) <= multiset(s)
    ensures r == [] <==> AllSpace(s, rt)
  {
    var a := TrimStart(s, rt);
    var r := TrimEnd(a, rt);
    TrimEmpty(s, a, r, rt);
    r
  }

  lemma TrimEmpty(s: string, a: string, r: string, rt: Runtime)
    requires a == TrimStart(s, rt) && r == TrimEnd(a, rt)
    ensures r == [] <==> AllSpace(s, rt)
  {
    var k := |s| - |a|;
    if r == [] {
      assert AllSpace(a, rt) by { assert a[0..] == a; }
      assert |a| == 0;
      forall i | 0 <= i < |s| ensures IsSpace(s[i], rt) {
        assert s[..k][i] == s[i];
      }
    } else {
      assert r[0] == a[0] == s[k];
    }
  }

  /** Every character of `Trim(s)` occurs in `s`. */
  lemma TrimSubset(s: string, rt: Runtime, c: char)
    requires c in Trim(s, rt)
    ensures c in s
  {
    assert multiset(Trim(s, rt))[c] > 0;
  }

  /** Trimming an already trimmed string changes nothing. */
  lemma TrimTrimmed(s: string, rt: Runtime)
    requires IsTrimmed(s, rt)
    ensures Trim(s, rt) == s
  {
  }

  function LowerChar(c: char): char {
    if 'A' <= c <= 'Z' then (c as int + 32) as char else c
  }

  function UpperChar(c: char): char {
    if 'a' <= c <= 'z' then (c as int - 32) as char else c
  }

  /** `toLowerCase()` / `lower()`, restricted to ASCII letters. */
  function Lower(s: string): (r: string)
    ensures |r| == |s|
    ensures forall i :: 0 <= i < |s| ==> r[i] == LowerChar(s[i])
  {
    seq(|s|, i requires 0 <= i < |s| => LowerChar(s[i]))
  }

  /** `toUpperCase()` / `upper()`, restricted to ASCII letters. */
  function Upper(s: string): (r: string)
    ensures |r| == |s|
    ensures forall i :: 0 <= i < |s| ==> r[i] == UpperChar(s[i])
  {
    seq(|s|, i requires 0 <= i < |s| => UpperChar(s[i]))
  }

  predicate IsLower(s: string) {
    forall i :: 0 <= i < |s| ==> !('A' <= s[i] <= 'Z')
  }

  predicate IsUpper(s: string) {
    forall i :: 0 <= i < |s| ==> !('a' <= s[i] <= 'z')
  }

  /** `t` occurs in `s` starting at position `i`. */
  predicate OccursAt(s: string, t: string, i: int) {
    0 <= i && i + |t| <= |s| && s[i..i + |t|] == t
  }

  /** `s.includes(t)` in JavaScript, `t in s` in Python. */
  function Contains(s: string, t: string): (b: bool)
    ensures b <==> exists i :: OccursAt(s, t, i)
    decreases |s|
  {
    if |t| > |s| then false
    else if s[..|t|] == t then (assert OccursAt(s, t, 0); true)
    else
      var b := Contains(s[1..], t);
      if b then
        var i :| OccursAt(s[1..], t, i);
        assert OccursAt(s, t, i + 1);
        true
      else
        assert forall i :: OccursAt(s, t, i) ==> i > 0 && OccursAt(s[1..], t, i - 1);
        false
  }

  /** `s.endsWith(t)`. */
  predicate EndsWith(s: string, t: string) {
    |t| <= |s| && s[|s| - |t|..] == t
  }

  /** The first `n` elements, or all of them when there are fewer (`slice(0, n)`, `[:n]`). */
  function Take<T>(s: seq<T>, n: nat): (r: seq<T>)
    ensures |r| == if |s| < n then |s| else n
    ensures r == s[..|r|]
  {
    if |s| <= n then s else s[..n]
  }

  /**
   * `s.split(sep)` for a one-character separator: the pieces between
   * consecutive separators, so `""` splits into `[""]`.
   */
  function Split(s: string, sep: char): (r: seq<string>)
    ensures |r| >= 1
    decreases |s|
  {
    if |s| == 0 then [""]
    else
      var p := Split(s[..|s| - 1], sep);
      var c := s[|s| - 1];
      if c == sep then p + [""] else p[..|p| - 1] + [p[|p| - 1] + [c]]
  }

  /** There is one piece more than there are separators, and no piece holds one. */
  lemma {:induction false} SplitPieces(s: string, sep: char)
    ensures |Split(s, sep)| == multiset(s)[sep] + 1
    ensures forall k :: 0 <= k < |Split(s, sep)| ==> sep !in Split(s, sep)[k]
    decreases |s|
  {
    if |s| > 0 {
      var init := s[..|s| - 1];
      var c := s[|s| - 1];
      assert s == init + [c];
      SplitPieces(init, sep);
      SplitSnoc(init, c, sep);
      PiecesStep(Split(init, sep), c, sep);
    }
  }

  /** Adding a character to separator-free pieces, as `Split` does, keeps them separator-free. */
  lemma PiecesStep(p: seq<string>, c: char, sep: char)
    requires |p| >= 1 && forall k :: 0 <= k < |p| ==> sep !in p[k]
    ensures var q := if c == sep then p + [""] else p[..|p| - 1] + [p[|p| - 1] + [c]];
      |q| == |p| + (if c == sep then 1 else 0) && forall k :: 0 <= k < |q| ==> sep !in q[k]
  {
    if c != sep {
      var q := p[..|p| - 1] + [p[|p| - 1] + [c]];
      assert forall k :: 0 <= k < |p| - 1 ==> q[k] == p[k];
    }
  }

  /** Inverse of `Split`: the pieces separated by `sep`. */
  function Join(parts: seq<string>, sep: char): string
    requires |parts| >= 1
  {
    if |parts| == 1 then parts[0] else Join(parts[..|parts| - 1], sep) + [sep] + parts[|parts| - 1]
  }

  lemma JoinAppendLast(init: seq<string>, x: string, sep: char, c: char)
    ensures Join(init + [x + [c]], sep) == Join(init + [x], sep) + [c]
  {
    assert (init + [x + [c]])[..|init|] == init == (init + [x])[..|init|];
  }

  /** Splitting and joining again gives back the original text. */
  lemma {:induction false} JoinSplit(s: string, sep: char)
    ensures Join(Split(s, sep), sep) == s
    decreases |s|
  {
    if |s| > 0 {
      var init := s[..|s| - 1];
      var c := s[|s| - 1];
      assert s == init + [c];
      var p := Split(init, sep);
      JoinSplit(init, sep);
      if c == sep {
        assert Split(s, sep) == p + [""];
        assert (p + [""])[..|p|] == p;
        assert Join(p + [""], sep) == Join(p, sep) + [sep];
      } else {
        var front := p[..|p| - 1];
        var last := p[|p| - 1];
        assert p == front + [last];
        assert Split(s, sep) == front + [last + [c]];
        JoinAppendLast(front, last, sep, c);
      }
    }
  }

  /** One more character at the end either starts a new piece or extends the last one. */
  lemma SplitSnoc(s: string, c: char, sep: char)
    ensures Split(s + [c], sep) ==
      var p := Split(s, sep);
      if c == sep then p + [""] else p[..|p| - 1] + [p[|p| - 1] + [c]]
  {
    var t := s + [c];
    assert t[..|t| - 1] == s;
  }

  /** Joining pieces free of the separator and splitting again gives back the pieces. */
  lemma {:induction false} SplitJoin(parts: seq<string>, sep: char)
    requires |parts| >= 1
    requires forall k :: 0 <= k < |parts| ==> sep !in parts[k]
    ensures Split(Join(parts, sep), sep) == parts
    decreases |parts|, |parts[|parts| - 1]|
  {
    var last := parts[|parts| - 1];
    var init := parts[..|parts| - 1];
    assert parts == init + [last];
    if |last| == 0 {
      if |parts| > 1 {
        SplitJoin(init, sep);
        SplitJoinNewPiece(init, sep);
      }
    } else {
      var c := last[|last| - 1];
      var x := last[..|last| - 1];
      assert last == x + [c];
      var shorter := init + [x];
      assert sep !in x by { assert sep !in last; }
      SplitJoin(shorter, sep);
      SplitJoinExtend(init, x, c, sep);
    }
  }

  lemma SplitJoinNewPiece(init: seq<string>, sep: char)
    requires |init| >= 1
    requires Split(Join(init, sep), sep) == init
    ensures Split(Join(init + [""], sep), sep) == init + [""]
  {
    var parts := init + [""];
    assert parts[..|parts| - 1] == init;
    assert Join(parts, sep) == Join(init, sep) + [sep];
    SplitSnoc(Join(init, sep), sep, sep);
  }

  lemma SplitJoinExtend(init: seq<string>, x: string, c: char, sep: char)
    requires c != sep
    requires Split(Join(init + [x], sep), sep) == init + [x]
    ensures Split(Join(init + [x + [c]], sep), sep) == init + [x + [c]]
  {
    JoinAppendLast(init, x, sep, c);
    SplitSnoc(Join(init + [x], sep), c, sep);
    var p := init + [x];
    assert p[..|p| - 1] + [p[|p| - 1] + [c]] == init + [x + [c]];
  }

  /** Some key of `keys` occurs in `h`. */
  predicate MatchesAny(h: string, keys: seq<string>) {
    exists k :: k in keys && Contains(h, k)
  }

  /**
   * `hs.findIndex(h => h.includes(k1) || h.includes(k2) || ...)`: the least
   * index whose element contains one of `keys`, or `None` for -1.
   */
  function FirstMatch(hs: seq<string>, keys: seq<string>): (r: Option<nat>)
    ensures r.Some? ==> r.value < |hs| && MatchesAny(hs[r.value], keys)
    ensures r.Some? ==> forall j :: 0 <= j < r.value ==> !MatchesAny(hs[j], keys)
    ensures r.None? <==> forall j :: 0 <= j < |hs| ==> !MatchesAny(hs[j], keys)
  {
    if |hs| == 0 then None
    else if MatchesAny(hs[0], keys) then Some(0)
    else
      match FirstMatch(hs[1..], keys)
      case None => None
      case Some(j) => Some(j + 1)
  }

  /** Whether a line is kept by JavaScript's `filter(line => line.trim())`. */
  predicate IsBlank(line: string) {
    Trim(line, JavaScript) == []
  }

  /** `lines.filter(line => line.trim())`: the lines that are not blank, in order. */
  function NonBlank(lines: seq<string>): (r: seq<string>)
    ensures |r| <= |lines|
    ensures forall k :: 0 <= k < |r| ==> !IsBlank(r[k]) && r[k] in lines
  {
    if |lines| == 0 then []
    else
      var p := NonBlank(lines[..|lines| - 1]);
      var l := lines[|lines| - 1];
      assert forall x :: x in lines[..|lines| - 1] ==> x in lines;
      if IsBlank(l) then p else p + [l]
  }

  /** Trimming white space off `x` padded on both sides by white space gives back `x`. */
  lemma TrimPadded(front: string, x: string, back: string, rt: Runtime)
    requires AllSpace(front, rt) && AllSpace(back, rt) && x != []
    requires !IsSpace(x[0], rt) && !IsSpace(x[|x| - 1], rt)
    ensures Trim(front + x + back, rt) == x
  {
    assert front + x + back == front + (x + back);
    TrimStartPadded(front, x + back, rt);
    TrimEndPadded(x, back, rt);
    assert TrimEnd(TrimStart(front + x + back, rt), rt) == x;
  }

  lemma TrimStartPadded(front: string, rest: string, rt: Runtime)
    requires AllSpace(front, rt) && rest != [] && !IsSpace(rest[0], rt)
    ensures TrimStart(front + rest, rt) == rest
  {
    var s := front + rest;
    var n := SpaceRunFrom(s, rt, 0);
    assert s[|front|] == rest[0];
    assert forall k :: 0 <= k < |front| ==> s[k] == front[k];
    assert s[|front|..] == rest;
  }

  lemma TrimEndPadded(x: string, back: string, rt: Runtime)
    requires AllSpace(back, rt) && x != [] && !IsSpace(x[|x| - 1], rt)
    ensures TrimEnd(x + back, rt) == x
  {
    var s := x + back;
    var n := SpaceRunTo(s, rt, |s|);
    assert s[|x| - 1] == x[|x| - 1];
    assert forall k :: |x| <= k < |s| ==> s[k] == back[k - |x|];
    assert s[..|x|] == x;
  }

  /** ASCII upper-casing neither creates nor removes white space. */
  lemma UpperKeepsSpace(s: string, rt: Runtime)
    ensures AllSpace(Upper(s), rt) <==> AllSpace(s, rt)
  {
    assert forall i :: 0 <= i < |s| ==> (IsSpace(Upper(s)[i], rt) <==> IsSpace(s[i], rt));
  }

  lemma UpperIsUpper(s: string)
    ensures IsUpper(Upper(s))
  {
  }

  /** Stripping keeps a string free of lower-case letters. */
  lemma TrimKeepsUpper(s: string, rt: Runtime)
    requires IsUpper(s)
    ensures IsUpper(Trim(s, rt))
  {
    var r := Trim(s, rt);
    forall i | 0 <= i < |r| ensures !('a' <= r[i] <= 'z') {
      TrimSubset(s, rt, r[i]);
    }
  }

  lemma LowerIsLower(s: string)
    ensures IsLower(Lower(s))
  {
  }

  /** The decimal digits of `n` (`str(n)`, `${n}`). */
  function Decimal(n: nat): (r: string)
    ensures r != [] && forall i :: 0 <= i < |r| ==> '0' <= r[i] <= '9'
  {
    if n < 10 then [('0' as int + n) as char]
    else Decimal(n / 10) + [('0' as int + n % 10) as char]
  }

  /** The number a string of decimal digits denotes. */
  function DecimalValue(s: string): nat
    requires forall i :: 0 <= i < |s| ==> '0' <= s[i] <= '9'
  {
    if s == [] then 0
    else DecimalValue(s[..|s| - 1]) * 10 + (s[|s| - 1] as int - '0' as int)
  }

  /** `Decimal` loses nothing: reading the digits back gives the number. */
  lemma {:induction false} DecimalRoundTrip(n: nat)
    ensures DecimalValue(Decimal(n)) == n
  {
    if n >= 10 {
      DecimalRoundTrip(n / 10);
      var s := Decimal(n);
      assert s[..|s| - 1] == Decimal(n / 10);
    }
  }
}
