/**
 * src/components/PromptEditor/ScoringCategoryEditor.tsx: the edits the
 * scoring-category editor makes to the list of categories, and the
 * camelCase key it derives from a category's label.
 *
 * Each handler builds a new list with `map`, `filter` or a spread and hands
 * it to `onChange`; here a handler is the function from the old list to the
 * list it hands over. The score handlers hand over nothing when the input
 * does not parse; they return `None` then.
 */
module ScoringCategories {
  import opened Wrappers
  import opened Strings

  /**
   * `ScoringCategory`. The source's `label` field is called `title` here,
   * because `label` is a keyword of Dafny.
   */
  datatype ScoringCategory = ScoringCategory(
    key: string, title: string, description: string, minScore: int, maxScore: int)

  // ---------------------------------------------------------------------------
  // toCamelCase
  // ---------------------------------------------------------------------------

  /** `word.charAt(0).toUpperCase() + word.slice(1).toLowerCase()`. */
  function Capitalize(w: string): (r: string)
    ensures |r| == |w|
    ensures ToLower(r) == ToLower(w)
    ensures w != [] ==> !IsAsciiLower(r[0]) && r[1..] == ToLower(w[1..])
  {
    if w == [] then []
    else
      ToLowerAppend(ToUpper(w[..1]), ToLower(w[1..]));
      ToLowerOfUpper(w[..1]);
      ToLowerIdempotent(w[1..]);
      ToLowerAppend(w[..1], w[1..]);
      assert w[..1] + w[1..] == w;
      ToUpper(w[..1]) + ToLower(w[1..])
  }

  /** `label.trim().split(/\s+/)`: the words of a trimmed label, and `[""]` for a blank one. */
  function Words(t: string): (r: seq<string>)
  {
    if t == [] then [""] else Runs(t, JS_WHITESPACE)
  }

  /** The first word lower-cased, every later one capitalised. */
  function CamelWords(words: seq<string>): (r: seq<string>)
    ensures |r| == |words|
    ensures forall i :: 0 <= i < |r| ==> ToLower(r[i]) == ToLower(words[i])
  {
    seq(|words|, i requires 0 <= i < |words| =>
      if i == 0 then (ToLowerIdempotent(words[i]); ToLower(words[i])) else Capitalize(words[i]))
  }

  /** `toCamelCase(label)`. */
  function ToCamelCase(s: string): (r: string)
  {
    Join(CamelWords(Words(Trim(s, JS_WHITESPACE))), "")
  }

  /** No ASCII letter is JavaScript white space, so case mapping keeps white space where it was. */
  lemma WhitespaceIsCaseless()
    ensures forall c :: c in JS_WHITESPACE ==> !IsAsciiUpper(c) && !IsAsciiLower(c)
  {
  }

  /** Parts that agree up to case join to strings that agree up to case. */
  lemma {:induction false} JoinLowerAgrees(a: seq<string>, b: seq<string>)
    requires |a| == |b|
    requires forall i :: 0 <= i < |a| ==> ToLower(a[i]) == ToLower(b[i])
    ensures ToLower(Join(a, "")) == ToLower(Join(b, ""))
  {
    if |a| > 1 {
      JoinLowerAgrees(a[1..], b[1..]);
      ToLowerAppend(a[0], Join(a[1..], ""));
      ToLowerAppend(b[0], Join(b[1..], ""));
      assert Join(a, "") == a[0] + Join(a[1..], "");
      assert Join(b, "") == b[0] + Join(b[1..], "");
    }
  }

  /** A string has no visible characters exactly when it is blank. */
  lemma {:induction false} NonBlankEmptyIffBlank(s: string, ws: set<char>)
    ensures NonBlank(s, ws) == "" <==> Blank(s, ws)
  {
    if s != [] {
      NonBlankEmptyIffBlank(s[1..], ws);
      if s[0] in ws {
        assert Blank(s, ws) <==> Blank(s[1..], ws) by {
          if Blank(s[1..], ws) {
            forall i | 0 <= i < |s| ensures s[i] in ws {
              if i > 0 { assert s[i] == s[1..][i - 1]; }
            }
          }
        }
      } else {
        assert !Blank(s, ws);
      }
    }
  }

  /** The words of a trimmed label, put back together, are its visible characters. */
  lemma WordsConcat(s: string)
    ensures Join(Words(Trim(s, JS_WHITESPACE)), "") == NonBlank(s, JS_WHITESPACE)
  {
    var t := Trim(s, JS_WHITESPACE);
    TrimKeepsNonBlank(s, JS_WHITESPACE);
    RunsConcat(t, JS_WHITESPACE);
  }

  /** The key keeps the visible characters of the label, in order, up to case. */
  lemma ToCamelCaseKeepsLetters(s: string)
    ensures ToLower(ToCamelCase(s)) == ToLower(NonBlank(s, JS_WHITESPACE))
    ensures |ToCamelCase(s)| == |NonBlank(s, JS_WHITESPACE)|
  {
    var w := Words(Trim(s, JS_WHITESPACE));
    JoinLowerAgrees(CamelWords(w), w);
    WordsConcat(s);
  }

  /** The key has no white space in it. */
  lemma ToCamelCaseNoWhitespace(s: string)
    ensures forall i :: 0 <= i < |ToCamelCase(s)| ==> ToCamelCase(s)[i] !in JS_WHITESPACE
  {
    var w := Words(Trim(s, JS_WHITESPACE));
    var cw := CamelWords(w);
    WhitespaceIsCaseless();
    forall i | 0 <= i < |cw| ensures forall j :: 0 <= j < |cw[i]| ==> cw[i][j] !in JS_WHITESPACE {
      if i == 0 {
        CaseKeepsWhitespace(w[i], JS_WHITESPACE);
      } else if w[i] != [] {
        CaseKeepsWhitespace(w[i][..1], JS_WHITESPACE);
        CaseKeepsWhitespace(w[i][1..], JS_WHITESPACE);
        assert cw[i] == ToUpper(w[i][..1]) + ToLower(w[i][1..]);
        forall j | 0 <= j < |cw[i]| ensures cw[i][j] !in JS_WHITESPACE {
          if j > 0 { assert w[i][1..][j - 1] == w[i][j]; }
        }
      }
    }
    forall c | c in JS_WHITESPACE ensures c !in Join(cw, "") {
      JoinExcludes(cw, "", c);
    }
  }

  /** A blank label, and only a blank one, gives the empty key. */
  lemma ToCamelCaseBlank(s: string)
    ensures ToCamelCase(s) == "" <==> Blank(s, JS_WHITESPACE)
  {
    ToCamelCaseKeepsLetters(s);
    NonBlankEmptyIffBlank(s, JS_WHITESPACE);
  }

  /** A trimmed label that is not empty starts a word. */
  lemma TrimmedStartsWord(s: string)
    requires Trim(s, JS_WHITESPACE) != ""
    ensures var w := Words(Trim(s, JS_WHITESPACE)); |w| >= 1 && w[0] != []
  {
    var u := TrimStart(s, JS_WHITESPACE);
    var t := TrimEnd(u, JS_WHITESPACE);
    assert t[0] == u[0];
    assert t[0] !in JS_WHITESPACE;
  }

  /** Joining with no separator starts with the first character of the first part. */
  lemma JoinStartsWithFirst(parts: seq<string>)
    requires |parts| >= 1 && parts[0] != []
    ensures Join(parts, "") != [] && Join(parts, "")[0] == parts[0][0]
  {
    if |parts| > 1 {
      assert Join(parts, "") == parts[0] + Join(parts[1..], "");
    }
  }

  /** The key starts in lower case: the first word is lower-cased. */
  lemma ToCamelCaseStartsLower(s: string)
    requires ToCamelCase(s) != ""
    ensures !IsAsciiUpper(ToCamelCase(s)[0])
  {
    var t := Trim(s, JS_WHITESPACE);
    var w := Words(t);
    var cw := CamelWords(w);
    ToCamelCaseBlank(s);
    TrimEmptyIffBlank(s, JS_WHITESPACE);
    TrimmedStartsWord(s);
    assert cw[0] == ToLower(w[0]);
    JoinStartsWithFirst(cw);
  }

  // ---------------------------------------------------------------------------
  // parseInt(value, 10)
  // ---------------------------------------------------------------------------

  /** The number of decimal digits `s` starts with. */
  function LeadingDigits(s: string): (n: nat)
    ensures n <= |s|
    ensures forall i :: 0 <= i < n ==> IsAsciiDigit(s[i])
    ensures n < |s| ==> !IsAsciiDigit(s[n])
  {
    if s != [] && IsAsciiDigit(s[0]) then 1 + LeadingDigits(s[1..]) else 0
  }

  /** The text after an optional leading sign. */
  function Unsigned(t: string): (body: string)
    ensures t != [] && (t[0] == '-' || t[0] == '+') ==> body == t[1..]
    ensures !(t != [] && (t[0] == '-' || t[0] == '+')) ==> body == t
  {
    if t != [] && (t[0] == '-' || t[0] == '+') then t[1..] else t
  }

  /** The signed number at the start of `t`, which has no leading white space. */
  function ParseSigned(t: string): (r: Option<int>)
  {
    var body := Unsigned(t);
    var n := LeadingDigits(body);
    if n == 0 then None
    else if t[0] == '-' then Some(0 - DigitsValue(body[..n]))
    else Some(DigitsValue(body[..n]))
  }

  /**
   * `parseInt(value, 10)`: leading white space is skipped, one `+` or `-`
   * is read, then the longest run of digits; with no digit the result is
   * `NaN` (`None`).
   */
  function ParseInt(value: string): (r: Option<int>)
  {
    ParseSigned(TrimStart(value, JS_WHITESPACE))
  }

  lemma {:induction false} TrimStartOfBlankPrefix(w: string, s: string)
    requires Blank(w, JS_WHITESPACE)
    ensures TrimStart(w + s, JS_WHITESPACE) == TrimStart(s, JS_WHITESPACE)
  {
    if w != [] {
      assert (w + s)[1..] == w[1..] + s;
      TrimStartOfBlankPrefix(w[1..], s);
    } else {
      assert w + s == s;
    }
  }

  /** Leading white space does not change what `parseInt` reads. */
  lemma ParseIntSkipsWhitespace(w: string, s: string)
    requires Blank(w, JS_WHITESPACE)
    ensures ParseInt(w + s) == ParseInt(s)
  {
    TrimStartOfBlankPrefix(w, s);
  }

  lemma {:induction false} LeadingDigitsOfDigits(d: string, rest: string)
    requires forall i :: 0 <= i < |d| ==> IsAsciiDigit(d[i])
    requires rest == [] || !IsAsciiDigit(rest[0])
    ensures LeadingDigits(d + rest) == |d|
  {
    if d == [] {
      assert d + rest == rest;
    } else {
      assert (d + rest)[1..] == d[1..] + rest;
      LeadingDigitsOfDigits(d[1..], rest);
    }
  }

  /** Digits followed by a non-digit read back as their value. */
  lemma ParseSignedDigits(d: string, rest: string)
    requires d != [] && forall i :: 0 <= i < |d| ==> IsAsciiDigit(d[i])
    requires rest == [] || !IsAsciiDigit(rest[0])
    ensures ParseSigned(d + rest) == Some(DigitsValue(d))
  {
    LeadingDigitsOfDigits(d, rest);
    assert (d + rest)[..|d|] == d;
  }

  /** With a minus sign in front they read back as the negated value. */
  lemma ParseSignedNegated(t: string, d: string, rest: string)
    requires t != [] && t[0] == '-' && t[1..] == d + rest
    requires d != [] && forall i :: 0 <= i < |d| ==> IsAsciiDigit(d[i])
    requires rest == [] || !IsAsciiDigit(rest[0])
    ensures ParseSigned(t) == Some(0 - DigitsValue(d))
  {
    assert Unsigned(t) == d + rest;
    LeadingDigitsOfDigits(d, rest);
    assert (d + rest)[..|d|] == d;
  }

  /**
   * A rendered integer followed by anything that does not continue its
   * digits parses back to that integer (so `"7"` gives 7 and `"7abc"` too).
   */
  lemma ParseIntRoundTrip(i: int, rest: string)
    requires rest == [] || !IsAsciiDigit(rest[0])
    ensures ParseInt(IntToString(i) + rest) == Some(i)
  {
    if i < 0 {
      ParseIntOfNegative(i, rest);
    } else {
      ParseIntOfNatural(i, rest);
    }
  }

  lemma ParseIntOfNegative(i: int, rest: string)
    requires i < 0
    requires rest == [] || !IsAsciiDigit(rest[0])
    ensures ParseInt(IntToString(i) + rest) == Some(i)
  {
    var d := NatToString(-i);
    var s := IntToString(i) + rest;
    assert DigitsValue(d) == -i by { NatToStringRoundTrip(-i); }
    assert s[0] == '-' && s[1..] == d + rest;
    assert ParseInt(s) == ParseSigned(s) by { NoTrimBeforeSignOrDigit(s); }
    assert ParseSigned(s) == Some(0 - DigitsValue(d)) by { ParseSignedNegated(s, d, rest); }
  }

  lemma ParseIntOfNatural(i: nat, rest: string)
    requires rest == [] || !IsAsciiDigit(rest[0])
    ensures ParseInt(IntToString(i) + rest) == Some(i)
  {
    var d := NatToString(i);
    var s := IntToString(i) + rest;
    assert DigitsValue(d) == i by { NatToStringRoundTrip(i); }
    assert s == d + rest;
    assert ParseInt(s) == ParseSigned(s) by { NoTrimBeforeSignOrDigit(s); }
    assert ParseSigned(s) == Some(DigitsValue(d)) by { ParseSignedDigits(d, rest); }
  }

  /** Text that starts with a sign or a digit has no white space to skip. */
  lemma NoTrimBeforeSignOrDigit(s: string)
    requires s != [] && (s[0] == '-' || s[0] == '+' || IsAsciiDigit(s[0]))
    ensures TrimStart(s, JS_WHITESPACE) == s
  {
    assert s[0] !in JS_WHITESPACE;
  }

  /** Input that starts with neither white space, a sign nor a digit is `NaN`. */
  lemma ParseIntRejects(value: string)
    requires value == [] || (value[0] !in JS_WHITESPACE && value[0] != '-' && value[0] != '+' && !IsAsciiDigit(value[0]))
    ensures ParseInt(value) == None
  {
  }

  /** A sign followed by no digit is `NaN` too. */
  lemma ParseIntLoneSign(sign: char, rest: string)
    requires sign == '-' || sign == '+'
    requires rest == [] || !IsAsciiDigit(rest[0])
    ensures ParseInt([sign] + rest) == None
  {
    var v := [sign] + rest;
    assert ParseInt(v) == ParseSigned(v) by {
      NoTrimBeforeSignOrDigit(v);
    }
    assert ParseSigned(v) == None by {
      assert v[1..] == rest;
      assert Unsigned(v) == rest;
    }
  }

  // ---------------------------------------------------------------------------
  // the list edits
  // ---------------------------------------------------------------------------

  /** `handleLabelChange(index, newLabel)`: the label and the key derived from it, at `index` only. */
  function HandleLabelChange(cats: seq<ScoringCategory>, index: int, newLabel: string): (r: seq<ScoringCategory>)
    ensures |r| == |cats|
    ensures forall i :: 0 <= i < |r| && i != index ==> r[i] == cats[i]
    ensures 0 <= index < |r| ==>
              r[index] == cats[index].(title := newLabel, key := ToCamelCase(newLabel))
  {
    seq(|cats|, i requires 0 <= i < |cats| =>
      if i == index then cats[i].(title := newLabel, key := ToCamelCase(newLabel)) else cats[i])
  }

  /** `handleDescriptionChange(index, newDescription)`. */
  function HandleDescriptionChange(cats: seq<ScoringCategory>, index: int, newDescription: string)
    : (r: seq<ScoringCategory>)
    ensures |r| == |cats|
    ensures forall i :: 0 <= i < |r| && i != index ==> r[i] == cats[i]
    ensures 0 <= index < |r| ==> r[index] == cats[index].(description := newDescription)
  {
    seq(|cats|, i requires 0 <= i < |cats| =>
      if i == index then cats[i].(description := newDescription) else cats[i])
  }

  /** `handleMinScoreChange(index, value)`: nothing is handed over when `value` is not a number. */
  function HandleMinScoreChange(cats: seq<ScoringCategory>, index: int, value: string)
    : (r: Option<seq<ScoringCategory>>)
    ensures r.None? <==> ParseInt(value).None?
    ensures r.Some? ==> |r.value| == |cats|
                        && (forall i :: 0 <= i < |cats| && i != index ==> r.value[i] == cats[i])
                        && (0 <= index < |cats| ==> r.value[index] == cats[index].(minScore := ParseInt(value).value))
  {
    match ParseInt(value)
    case None => None
    case Some(num) =>
      Some(seq(|cats|, i requires 0 <= i < |cats| => if i == index then cats[i].(minScore := num) else cats[i]))
  }

  /** `handleMaxScoreChange(index, value)`. */
  function HandleMaxScoreChange(cats: seq<ScoringCategory>, index: int, value: string)
    : (r: Option<seq<ScoringCategory>>)
    ensures r.None? <==> ParseInt(value).None?
    ensures r.Some? ==> |r.value| == |cats|
                        && (forall i :: 0 <= i < |cats| && i != index ==> r.value[i] == cats[i])
                        && (0 <= index < |cats| ==> r.value[index] == cats[index].(maxScore := ParseInt(value).value))
  {
    match ParseInt(value)
    case None => None
    case Some(num) =>
      Some(seq(|cats|, i requires 0 <= i < |cats| => if i == index then cats[i].(maxScore := num) else cats[i]))
  }

  /** `categories.filter((_, i) => i !== index)`, walking the list with the index counting down. */
  function HandleRemove(cats: seq<ScoringCategory>, index: int): (r: seq<ScoringCategory>)
    ensures 0 <= index < |cats| ==> r == cats[..index] + cats[index + 1..]
    ensures !(0 <= index < |cats|) ==> r == cats
  {
    if cats == [] then []
    else (if index == 0 then [] else [cats[0]]) + HandleRemove(cats[1..], index - 1)
  }

  /** The category `handleAdd` appends. */
  const NEW_CATEGORY := ScoringCategory("", "", "", 1, 10)

  /** `handleAdd()`. */
  function HandleAdd(cats: seq<ScoringCategory>): (r: seq<ScoringCategory>)
    ensures |r| == |cats| + 1 && r[..|cats|] == cats && r[|cats|] == NEW_CATEGORY
  {
    cats + [NEW_CATEGORY]
  }

  /** Removing the category just added gives the list back. */
  lemma RemoveUndoesAdd(cats: seq<ScoringCategory>)
    ensures HandleRemove(HandleAdd(cats), |cats|) == cats
  {
    assert HandleAdd(cats)[..|cats|] == cats;
  }

  /** Edits at different positions do not interfere: they can be made in either order. */
  lemma EditsCommute(cats: seq<ScoringCategory>, i: int, j: int, newLabel: string, newDescription: string)
    requires i != j
    ensures HandleDescriptionChange(HandleLabelChange(cats, i, newLabel), j, newDescription)
         == HandleLabelChange(HandleDescriptionChange(cats, j, newDescription), i, newLabel)
  {
  }

  /** Every key is the camelCase of its label. */
  predicate KeysDerived(cats: seq<ScoringCategory>)
  {
    forall i :: 0 <= i < |cats| ==> cats[i].key == ToCamelCase(cats[i].title)
  }

  /** Editing a label rederives its key, so every key stays derived from its label. */
  lemma LabelChangeKeepsKeysDerived(cats: seq<ScoringCategory>, index: int, newLabel: string)
    requires KeysDerived(cats)
    ensures KeysDerived(HandleLabelChange(cats, index, newLabel))
  {
  }

  /** A description edit leaves labels and keys alone. */
  lemma DescriptionChangeKeepsKeysDerived(cats: seq<ScoringCategory>, index: int, newDescription: string)
    requires KeysDerived(cats)
    ensures KeysDerived(HandleDescriptionChange(cats, index, newDescription))
  {
    var r := HandleDescriptionChange(cats, index, newDescription);
    forall i | 0 <= i < |r| ensures r[i].key == ToCamelCase(r[i].title) {
      assert r[i].key == cats[i].key && r[i].title == cats[i].title;
    }
  }

  /** A list with the same keys and labels as one whose keys are derived has derived keys too. */
  lemma SameLabelsKeepKeysDerived(cats: seq<ScoringCategory>, r: seq<ScoringCategory>)
    requires KeysDerived(cats)
    requires |r| == |cats|
    requires forall i :: 0 <= i < |r| ==> r[i].key == cats[i].key && r[i].title == cats[i].title
    ensures KeysDerived(r)
  {
    forall i | 0 <= i < |r| ensures r[i].key == ToCamelCase(r[i].title) {
      assert r[i].key == cats[i].key && r[i].title == cats[i].title;
    }
  }

  /** A minimum-score change keeps every key derived from its label. */
  lemma MinScoreChangeKeepsKeysDerived(cats: seq<ScoringCategory>, index: int, value: string)
    requires KeysDerived(cats)
    requires HandleMinScoreChange(cats, index, value).Some?
    ensures KeysDerived(HandleMinScoreChange(cats, index, value).value)
  {
    var r := HandleMinScoreChange(cats, index, value).value;
    forall i | 0 <= i < |r| ensures r[i].key == cats[i].key && r[i].title == cats[i].title {
      if i == index { assert r[i] == cats[i].(minScore := r[i].minScore); } else { assert r[i] == cats[i]; }
    }
    SameLabelsKeepKeysDerived(cats, r);
  }

  /** A maximum-score change keeps every key derived from its label. */
  lemma MaxScoreChangeKeepsKeysDerived(cats: seq<ScoringCategory>, index: int, value: string)
    requires KeysDerived(cats)
    requires HandleMaxScoreChange(cats, index, value).Some?
    ensures KeysDerived(HandleMaxScoreChange(cats, index, value).value)
  {
    var r := HandleMaxScoreChange(cats, index, value).value;
    forall i | 0 <= i < |r| ensures r[i].key == cats[i].key && r[i].title == cats[i].title {
      if i == index { assert r[i] == cats[i].(maxScore := r[i].maxScore); } else { assert r[i] == cats[i]; }
    }
    SameLabelsKeepKeysDerived(cats, r);
  }

  /** Removing a category keeps the keys of the others derived. */
  lemma RemoveKeepsKeysDerived(cats: seq<ScoringCategory>, index: int)
    requires KeysDerived(cats)
    ensures KeysDerived(HandleRemove(cats, index))
  {
    var r := HandleRemove(cats, index);
    if 0 <= index < |cats| {
      forall i | 0 <= i < |r| ensures r[i].key == ToCamelCase(r[i].title) {
        if i >= index { assert r[i] == cats[i + 1]; } else { assert r[i] == cats[i]; }
      }
    }
  }

  /** The added category has an empty label and the empty key, which is its camelCase. */
  lemma AddKeepsKeysDerived(cats: seq<ScoringCategory>)
    requires KeysDerived(cats)
    ensures KeysDerived(HandleAdd(cats))
  {
    var r := HandleAdd(cats);
    forall i | 0 <= i < |r| ensures r[i].key == ToCamelCase(r[i].title) {
      if i < |cats| {
        assert r[i] == cats[i];
      } else {
        ToCamelCaseBlank("");
        assert r[i] == NEW_CATEGORY;
      }
    }
  }
}
