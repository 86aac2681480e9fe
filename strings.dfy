/**
 * String operations of the two runtimes (TypeScript and Python) that the
 * modelled code relies on: `join`, `split` on one character, `trim`/`strip`,
 * splitting on whitespace runs, ASCII case mapping, prefix tests and the
 * decimal rendering of integers by template strings and f-strings.
 */
module Strings {

  /** `t` occurs in `s` at offset `k`. */
  ghost predicate Occurs(t: string, s: string, k: nat)
  {
    k + |t| <= |s| && s[k..k + |t|] == t
  }

  /** `s.startsWith(p)` / `s.startswith(p)`. */
  predicate StartsWith(s: string, p: string)
  {
    |p| <= |s| && s[..|p|] == p
  }

  /** `s.endsWith(p)`. */
  predicate EndsWith(s: string, p: string)
  {
    |p| <= |s| && s[|s| - |p|..] == p
  }

  // ---------------------------------------------------------------------------
  // join
  // ---------------------------------------------------------------------------

  /** `parts.join(sep)` in TypeScript and `sep.join(parts)` in Python. */
  function Join(parts: seq<string>, sep: string): string
  {
    if |parts| == 0 then ""
    else if |parts| == 1 then parts[0]
    else parts[0] + sep + Join(parts[1..], sep)
  }

  /** Every part of a join occurs in the joined string. */
  lemma {:induction false} JoinOccurs(parts: seq<string>, sep: string, i: nat) returns (k: nat)
    requires i < |parts|
    ensures Occurs(parts[i], Join(parts, sep), k)
  {
    if i == 0 {
      k := 0;
      if |parts| > 1 {
        assert Join(parts, sep) == parts[0] + (sep + Join(parts[1..], sep));
      }
    } else {
      var k' := JoinOccurs(parts[1..], sep, i - 1);
      k := |parts[0]| + |sep| + k';
      assert Join(parts, sep) == (parts[0] + sep) + Join(parts[1..], sep);
      assert Join(parts, sep)[k..k + |parts[i]|] == Join(parts[1..], sep)[k'..k' + |parts[i]|];
    }
  }

  /** Joining with the empty separator is concatenation, so it splits over `+`. */
  lemma {:induction false} JoinEmptyAppend(a: seq<string>, b: seq<string>)
    ensures Join(a + b, "") == Join(a, "") + Join(b, "")
  {
    if |a| == 0 {
      assert a + b == b;
    } else if |a| == 1 {
      if |b| != 0 {
        assert (a + b)[1..] == b;
      }
    } else {
      assert (a + b)[1..] == a[1..] + b;
      JoinEmptyAppend(a[1..], b);
    }
  }

  // ---------------------------------------------------------------------------
  // split on one character
  // ---------------------------------------------------------------------------

  /**
   * `s.split(c)` for a one-character separator, in both runtimes: the
   * pieces between the occurrences of `c`, so the empty string gives `[""]`.
   */
  function Split(s: string, c: char): (r: seq<string>)
    ensures |r| >= 1
    ensures (|r| == 1) == (c !in s)
    ensures forall i :: 0 <= i < |r| ==> c !in r[i]
  {
    if s == [] then [""]
    else
      var rest := Split(s[1..], c);
      if s[0] == c then [""] + rest else [[s[0]] + rest[0]] + rest[1..]
  }

  /** Splitting and re-joining with the same character gives the string back. */
  lemma {:induction false} JoinSplit(s: string, c: char)
    ensures Join(Split(s, c), [c]) == s
  {
    if s != [] {
      var rest := Split(s[1..], c);
      JoinSplit(s[1..], c);
      if s[0] == c {
        assert ([""] + rest)[1..] == rest;
      } else if |rest| > 1 {
        var r := [[s[0]] + rest[0]] + rest[1..];
        assert r[1..] == rest[1..];
        assert Join(rest, [c]) == rest[0] + [c] + Join(rest[1..], [c]);
      }
    }
  }

  /** The first piece of a split is the part before the first `c`. */
  lemma {:induction false} SplitHead(s: string, c: char)
    ensures StartsWith(s, Split(s, c)[0])
    ensures c in s ==> |Split(s, c)[0]| < |s| && s[|Split(s, c)[0]|] == c
    ensures c !in s ==> Split(s, c)[0] == s
  {
    if s != [] && s[0] != c {
      SplitHead(s[1..], c);
    }
  }

  /** The first piece ends at the first occurrence of `c`. */
  lemma {:induction false} SplitHeadAt(s: string, c: char, k: nat)
    requires k < |s| && s[k] == c && c !in s[..k]
    ensures Split(s, c)[0] == s[..k]
  {
    if k > 0 {
      assert s[0] == s[..k][0];
      assert s[1..][..k - 1] == s[1..k];
      SplitHeadAt(s[1..], c, k - 1);
    }
  }

  /** The last piece of a split is the part after the last `c`. */
  lemma SplitLast(s: string, c: char)
    ensures EndsWith(s, Split(s, c)[|Split(s, c)| - 1])
    ensures c !in s ==> Split(s, c)[|Split(s, c)| - 1] == s
    ensures c in s ==>
      var l := Split(s, c)[|Split(s, c)| - 1];
      |l| < |s| && s[|s| - |l| - 1] == c
  {
    SplitLastEnds(s, c);
    SplitHead(s, c);
    if c in s {
      SplitLastAfterSeparator(s, c);
    }
  }

  /** A separator at the front, or one further on, leaves the last piece to the rest of the text. */
  lemma SplitLastStep(s: string, c: char)
    requires s != [] && (s[0] == c || |Split(s[1..], c)| > 1)
    ensures Split(s, c)[|Split(s, c)| - 1] == Split(s[1..], c)[|Split(s[1..], c)| - 1]
  {
    var rest := Split(s[1..], c);
    if s[0] == c {
      assert Split(s, c) == [""] + rest;
    } else {
      assert Split(s, c) == [[s[0]] + rest[0]] + rest[1..];
    }
  }

  /** The last piece is a suffix. */
  lemma {:induction false} SplitLastEnds(s: string, c: char)
    ensures EndsWith(s, Split(s, c)[|Split(s, c)| - 1])
  {
    if s != [] {
      var rest := Split(s[1..], c);
      var l := rest[|rest| - 1];
      SplitLastEnds(s[1..], c);
      if s[0] == c || |rest| > 1 {
        SplitLastStep(s, c);
        assert s[|s| - |l|..] == s[1..][|s[1..]| - |l|..];
      } else {
        SplitHead(s[1..], c);
        assert Split(s, c) == [[s[0]] + rest[0]];
        assert [s[0]] + rest[0] == s;
      }
    }
  }

  /** When `s` holds a `c`, one stands right before the last piece. */
  lemma {:induction false} SplitLastAfterSeparator(s: string, c: char)
    requires c in s
    ensures var l := Split(s, c)[|Split(s, c)| - 1];
            |l| < |s| && s[|s| - |l| - 1] == c
  {
    var t := s[1..];
    var rest := Split(t, c);
    var l := rest[|rest| - 1];
    assert s == [s[0]] + t;
    if c in t {
      SplitLastAfterSeparator(t, c);
      SplitLastStep(s, c);
      assert s[|s| - |l| - 1] == t[|t| - |l| - 1];
    } else {
      assert s[0] == c;
      SplitHead(t, c);
      SplitLastStep(s, c);
      assert l == t;
    }
  }

  /** A piece free of `c` followed by `c` splits off as the first piece. */
  lemma {:induction false} SplitAfterPiece(a: string, c: char, b: string)
    requires c !in a
    ensures Split(a + [c] + b, c) == [a] + Split(b, c)
  {
    var s := a + [c] + b;
    if a == [] {
      assert s[1..] == b;
    } else {
      assert s[1..] == a[1..] + [c] + b;
      SplitAfterPiece(a[1..], c, b);
      var rest := Split(s[1..], c);
      assert rest == [a[1..]] + Split(b, c);
      assert s[0] == a[0] && s[0] != c;
      assert Split(s, c) == [[s[0]] + rest[0]] + rest[1..];
      assert rest[1..] == Split(b, c);
      assert [a[0]] + a[1..] == a;
    }
  }

  /** Joining pieces free of `c` with `c` and splitting on `c` gives the pieces back. */
  lemma {:induction false} SplitJoin(parts: seq<string>, c: char)
    requires |parts| >= 1
    requires forall i :: 0 <= i < |parts| ==> c !in parts[i]
    ensures Split(Join(parts, [c]), c) == parts
  {
    if |parts| == 1 {
      JoinSplit(parts[0], c);
    } else {
      SplitJoin(parts[1..], c);
      SplitAfterPiece(parts[0], c, Join(parts[1..], [c]));
      assert [parts[0]] + parts[1..] == parts;
    }
  }

  /** A character in neither the parts nor the separator is not in their join. */
  lemma {:induction false} JoinExcludes(parts: seq<string>, sep: string, c: char)
    requires c !in sep
    requires forall i :: 0 <= i < |parts| ==> c !in parts[i]
    ensures c !in Join(parts, sep)
  {
    if |parts| > 1 {
      JoinExcludes(parts[1..], sep, c);
    }
  }

  // ---------------------------------------------------------------------------
  // whitespace, trim and whitespace runs
  // ---------------------------------------------------------------------------

  /** The characters JavaScript's `trim` and `\s` treat as white space. */
  const JS_WHITESPACE: set<char> :=
    {'\t', '\n', '\U{B}', '\U{C}', '\r', ' ', '\U{A0}', '\U{1680}',
     '\U{2000}', '\U{2001}', '\U{2002}', '\U{2003}', '\U{2004}', '\U{2005}',
     '\U{2006}', '\U{2007}', '\U{2008}', '\U{2009}', '\U{200A}',
     '\U{2028}', '\U{2029}', '\U{202F}', '\U{205F}', '\U{3000}', '\U{FEFF}'}

  /** The characters Python's `str.strip()` removes (those `str.isspace` accepts). */
  const PY_WHITESPACE: set<char> :=
    {'\t', '\n', '\U{B}', '\U{C}', '\r', '\U{1C}', '\U{1D}', '\U{1E}', '\U{1F}',
     ' ', '\U{85}', '\U{A0}', '\U{1680}',
     '\U{2000}', '\U{2001}', '\U{2002}', '\U{2003}', '\U{2004}', '\U{2005}',
     '\U{2006}', '\U{2007}', '\U{2008}', '\U{2009}', '\U{200A}',
     '\U{2028}', '\U{2029}', '\U{202F}', '\U{205F}', '\U{3000}'}

  /** Drops the leading characters that are in `ws`. */
  function TrimStart(s: string, ws: set<char>): (r: string)
    ensures |r| <= |s| && r == s[|s| - |r|..]
    ensures r != [] ==> r[0] !in ws
    ensures forall i :: 0 <= i < |s| - |r| ==> s[i] in ws
  {
    if s != [] && s[0] in ws then TrimStart(s[1..], ws) else s
  }

  /** Drops the trailing characters that are in `ws`. */
  function TrimEnd(s: string, ws: set<char>): (r: string)
    ensures |r| <= |s| && r == s[..|r|]
    ensures r != [] ==> r[|r| - 1] !in ws
    ensures forall i :: |r| <= i < |s| ==> s[i] in ws
  {
    if s != [] && s[|s| - 1] in ws then TrimEnd(s[..|s| - 1], ws) else s
  }

  /** `s.trim()` (with `JS_WHITESPACE`) and `s.strip()` (with `PY_WHITESPACE`). */
  function Trim(s: string, ws: set<char>): string
  {
    TrimEnd(TrimStart(s, ws), ws)
  }

  /** All characters of `s` are white space. */
  predicate Blank(s: string, ws: set<char>)
  {
    forall i :: 0 <= i < |s| ==> s[i] in ws
  }

  /** A string trims to the empty string exactly when it is blank. */
  lemma TrimEmptyIffBlank(s: string, ws: set<char>)
    ensures (Trim(s, ws) == "") == Blank(s, ws)
  {
    var t := TrimStart(s, ws);
    if Trim(s, ws) == "" {
      assert Blank(t, ws);
      assert t == [];
    }
  }

  /** The characters of `s` that are not white space, in order. */
  function NonBlank(s: string, ws: set<char>): string
  {
    if s == [] then []
    else if s[0] in ws then NonBlank(s[1..], ws)
    else [s[0]] + NonBlank(s[1..], ws)
  }

  lemma {:induction false} NonBlankAppend(a: string, b: string, ws: set<char>)
    ensures NonBlank(a + b, ws) == NonBlank(a, ws) + NonBlank(b, ws)
  {
    if a == [] {
      assert a + b == b;
    } else {
      assert (a + b)[1..] == a[1..] + b;
      NonBlankAppend(a[1..], b, ws);
    }
  }

  lemma {:induction false} NonBlankOfBlank(s: string, ws: set<char>)
    requires Blank(s, ws)
    ensures NonBlank(s, ws) == ""
  {
    if s != [] {
      NonBlankOfBlank(s[1..], ws);
    }
  }

  lemma {:induction false} NonBlankOfSolid(s: string, ws: set<char>)
    requires forall i :: 0 <= i < |s| ==> s[i] !in ws
    ensures NonBlank(s, ws) == s
  {
    if s != [] {
      NonBlankOfSolid(s[1..], ws);
    }
  }

  lemma TrimStartKeepsNonBlank(s: string, ws: set<char>)
    ensures NonBlank(TrimStart(s, ws), ws) == NonBlank(s, ws)
  {
    var t := TrimStart(s, ws);
    var head := s[..|s| - |t|];
    assert s == head + t;
    NonBlankAppend(head, t, ws);
    NonBlankOfBlank(head, ws);
  }

  lemma TrimEndKeepsNonBlank(s: string, ws: set<char>)
    ensures NonBlank(TrimEnd(s, ws), ws) == NonBlank(s, ws)
  {
    var u := TrimEnd(s, ws);
    var tail := s[|u|..];
    assert s == u + tail;
    NonBlankAppend(u, tail, ws);
    NonBlankOfBlank(tail, ws);
  }

  /** Trimming removes only white space. */
  lemma TrimKeepsNonBlank(s: string, ws: set<char>)
    ensures NonBlank(Trim(s, ws), ws) == NonBlank(s, ws)
  {
    TrimStartKeepsNonBlank(s, ws);
    TrimEndKeepsNonBlank(TrimStart(s, ws), ws);
  }

  /** Length of the leading run of characters that are not white space. */
  function RunLength(s: string, ws: set<char>): (n: nat)
    ensures n <= |s|
    ensures forall i :: 0 <= i < n ==> s[i] !in ws
    ensures n < |s| ==> s[n] in ws
  {
    if s == [] || s[0] in ws then 0 else 1 + RunLength(s[1..], ws)
  }

  /**
   * The maximal non-empty runs of non-white-space characters. For a string
   * with no leading or trailing white space this is what JavaScript's
   * `s.split(/\s+/)` returns, except that `""` splits into `[""]`.
   */
  function Runs(s: string, ws: set<char>): (r: seq<string>)
    ensures forall i :: 0 <= i < |r| ==> r[i] != []
    ensures forall i, j :: 0 <= i < |r| && 0 <= j < |r[i]| ==> r[i][j] !in ws
    decreases |s|
  {
    if s == [] then []
    else if s[0] in ws then Runs(s[1..], ws)
    else
      var n := RunLength(s, ws);
      [s[..n]] + Runs(s[n..], ws)
  }

  /** Concatenating the runs gives back the non-white-space characters. */
  lemma {:induction false} RunsConcat(s: string, ws: set<char>)
    ensures Join(Runs(s, ws), "") == NonBlank(s, ws)
    decreases |s|
  {
    if s == [] {
    } else if s[0] in ws {
      RunsConcat(s[1..], ws);
    } else {
      var n := RunLength(s, ws);
      RunsConcat(s[n..], ws);
      JoinEmptyAppend([s[..n]], Runs(s[n..], ws));
      assert s == s[..n] + s[n..];
      NonBlankAppend(s[..n], s[n..], ws);
      NonBlankOfSolid(s[..n], ws);
    }
  }

  /** A non-empty string with no white space is one run. */
  lemma RunsOfSolid(s: string, ws: set<char>)
    requires s != []
    requires forall i :: 0 <= i < |s| ==> s[i] !in ws
    ensures Runs(s, ws) == [s]
  {
    var n := RunLength(s, ws);
    assert n == |s|;
    assert s[..n] == s && s[n..] == [];
  }

  // ---------------------------------------------------------------------------
  // ASCII case mapping and character classes
  // ---------------------------------------------------------------------------

  predicate IsAsciiUpper(c: char) { 'A' <= c <= 'Z' }
  predicate IsAsciiLower(c: char) { 'a' <= c <= 'z' }
  predicate IsAsciiDigit(c: char) { '0' <= c <= '9' }

  /** The regular-expression class `[a-zA-Z0-9]`. */
  predicate IsAsciiAlnum(c: char) { IsAsciiUpper(c) || IsAsciiLower(c) || IsAsciiDigit(c) }

  function LowerChar(c: char): (d: char)
    ensures !IsAsciiUpper(d)
    ensures IsAsciiUpper(c) || d == c
  {
    if IsAsciiUpper(c) then (c as int + 32) as char else c
  }

  function UpperChar(c: char): (d: char)
    ensures !IsAsciiLower(d)
    ensures IsAsciiLower(c) || d == c
  {
    if IsAsciiLower(c) then (c as int - 32) as char else c
  }

  /** `s.toLowerCase()`, for the ASCII letters. */
  function ToLower(s: string): (r: string)
    ensures |r| == |s|
  {
    seq(|s|, i requires 0 <= i < |s| => LowerChar(s[i]))
  }

  /** `s.toUpperCase()`, for the ASCII letters. */
  function ToUpper(s: string): (r: string)
    ensures |r| == |s|
  {
    seq(|s|, i requires 0 <= i < |s| => UpperChar(s[i]))
  }

  lemma ToLowerAppend(a: string, b: string)
    ensures ToLower(a + b) == ToLower(a) + ToLower(b)
  {
  }

  lemma ToLowerIdempotent(s: string)
    ensures ToLower(ToLower(s)) == ToLower(s)
  {
  }

  /** Lower-casing after upper-casing is the same as lower-casing. */
  lemma ToLowerOfUpper(s: string)
    ensures ToLower(ToUpper(s)) == ToLower(s)
  {
  }

  /** Case mapping leaves white space where it was. */
  lemma CaseKeepsWhitespace(s: string, ws: set<char>)
    requires forall c :: c in ws ==> !IsAsciiUpper(c) && !IsAsciiLower(c)
    ensures forall i :: 0 <= i < |s| ==> (ToLower(s)[i] in ws) == (s[i] in ws)
    ensures forall i :: 0 <= i < |s| ==> (ToUpper(s)[i] in ws) == (s[i] in ws)
  {
  }

  // ---------------------------------------------------------------------------
  // decimal rendering of integers
  // ---------------------------------------------------------------------------

  function DigitChar(d: nat): (c: char)
    requires d < 10
    ensures IsAsciiDigit(c)
  {
    (48 + d) as char
  }

  /** The decimal digits of `n`, as `String(n)` and `str(n)` render it. */
  function NatToString(n: nat): (s: string)
    ensures |s| >= 1
    ensures forall i :: 0 <= i < |s| ==> IsAsciiDigit(s[i])
  {
    if n < 10 then [DigitChar(n)] else NatToString(n / 10) + [DigitChar(n % 10)]
  }

  /** An integer as a template string renders it: a minus sign, then the digits. */
  function IntToString(i: int): (s: string)
    ensures |s| >= 1
    ensures i >= 0 ==> s == NatToString(i)
    ensures forall k :: 0 <= k < |s| ==> s[k] == '-' || IsAsciiDigit(s[k])
  {
    if i < 0 then "-" + NatToString(-i) else NatToString(i)
  }

  function DigitValue(c: char): (d: nat)
    requires IsAsciiDigit(c)
    ensures d < 10
  {
    c as int - '0' as int
  }

  /** The value of a string of decimal digits. */
  function DigitsValue(s: string): nat
    requires forall i :: 0 <= i < |s| ==> IsAsciiDigit(s[i])
  {
    if s == [] then 0
    else 10 * DigitsValue(s[..|s| - 1]) + DigitValue(s[|s| - 1])
  }

  /** Reading back the rendered digits gives the number. */
  lemma {:induction false} NatToStringRoundTrip(n: nat)
    ensures DigitsValue(NatToString(n)) == n
  {
    if n >= 10 {
      var s := NatToString(n);
      assert s[..|s| - 1] == NatToString(n / 10);
      NatToStringRoundTrip(n / 10);
    }
  }

  /** Distinct numbers render differently. */
  lemma NatToStringInjective(a: nat, b: nat)
    requires a != b
    ensures NatToString(a) != NatToString(b)
  {
    NatToStringRoundTrip(a);
    NatToStringRoundTrip(b);
  }
  /** The first space-separated word of a rendered count followed by a space reads back as the count. */
  lemma LeadingNumber(n: nat, rest: string)
    requires rest != [] && rest[0] == ' '
    ensures var h := Split(NatToString(n) + rest, ' ')[0];
            h == NatToString(n) && DigitsValue(h) == n
  {
    var d := NatToString(n);
    var s := d + rest;
    assert s[|d|] == ' ' && s[..|d|] == d;
    SplitHeadAt(s, ' ', |d|);
    NatToStringRoundTrip(n);
  }

  /** An occurrence inside `b` is an occurrence inside `a + b + c`, shifted by `|a|`. */
  lemma OccursWithin(t: string, a: string, b: string, c: string, k: nat)
    requires Occurs(t, b, k)
    ensures Occurs(t, a + b + c, |a| + k)
  {
    assert (a + b + c)[|a| + k..|a| + k + |t|] == b[k..k + |t|];
  }

  /**
   * The same for a `whole` known to be `a + b + c`; the offset is returned
   * rather than stated, so callers need not compute `|a|`.
   */
  lemma OccursIn(t: string, whole: string, a: string, b: string, c: string, k: nat) returns (k': nat)
    requires whole == a + b + c
    requires Occurs(t, b, k)
    ensures Occurs(t, whole, k')
  {
    OccursWithin(t, a, b, c, k);
    k' := |a| + k;
  }

  /** An occurrence inside `b` is an occurrence inside a `whole` known to be `a + b`. */
  lemma OccursInSuffix(t: string, whole: string, a: string, b: string, k: nat) returns (k': nat)
    requires whole == a + b
    requires Occurs(t, b, k)
    ensures Occurs(t, whole, k')
  {
    assert whole[|a| + k..|a| + k + |t|] == b[k..k + |t|];
    k' := |a| + k;
  }
  /** Distinct integers render differently. */
  lemma IntToStringInjective(a: int, b: int)
    requires a != b
    ensures IntToString(a) != IntToString(b)
  {
    if a >= 0 && b >= 0 {
      NatToStringInjective(a, b);
    } else if a < 0 && b < 0 {
      NatToStringInjective(-a, -b);
      assert IntToString(a)[1..] == NatToString(-a);
      assert IntToString(b)[1..] == NatToString(-b);
    } else {
      assert IntToString(a)[0] != IntToString(b)[0];
    }
  }

  /** A word without spaces, followed by nothing or by a space, is the first space-separated word. */
  lemma LeadingWord(w: string, rest: string)
    requires ' ' !in w
    requires rest == [] || rest[0] == ' '
    ensures Split(w + rest, ' ')[0] == w
  {
    if rest == [] {
      assert w + rest == w;
      SplitHead(w, ' ');
    } else {
      var s := w + rest;
      assert s[|w|] == ' ' && s[..|w|] == w;
      SplitHeadAt(s, ' ', |w|);
    }
  }
}
