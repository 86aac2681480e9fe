/**
 * src/utils/columnAnalyzer.ts: classifying a CSV column as empty, numeric,
 * categorical or free text, the one-line and prose summaries of a column,
 * sample rendering, the fixed-width sample table and identifier sanitising.
 *
 * `parseFloat` is the oracle `isNumeric` (true when the value does not parse
 * to NaN). The numeric statistics are floating point and are not computed
 * here: `summarize` is the oracle that takes the parseable values and
 * renders min, max, mean and the quartiles as `toFixed(2)` would.
 */
module ColumnAnalyzer {
  import opened Wrappers
  import opened Strings

  /** A raw cell: `None` is `null` or `undefined`. */
  type Cell = Option<string>

  /** The analyser treats `null`, `undefined` and `''` alike as missing. */
  predicate IsNull(v: Cell)
  {
    v.None? || v.value == ""
  }

  function Min(a: int, b: int): int
  {
    if a <= b then a else b
  }

  /** `s.slice(0, n)`. */
  function Take<T>(s: seq<T>, n: nat): (r: seq<T>)
    ensures |r| == Min(|s|, n) && r == s[..|r|]
  {
    if |s| <= n then s else s[..n]
  }

  // ---------------------------------------------------------------------------
  // counting, filtering and distinct values
  // ---------------------------------------------------------------------------

  /** The non-missing values of a column, in order. */
  function NonNull(values: seq<Cell>): (r: seq<string>)
    ensures |r| <= |values|
    ensures forall s :: s in r <==> s != "" && Some(s) in values
  {
    if values == [] then []
    else
      assert values == [values[0]] + values[1..];
      (if IsNull(values[0]) then [] else [values[0].value]) + NonNull(values[1..])
  }

  /** The number of missing cells, counted one by one. */
  function NullCount(values: seq<Cell>): (n: nat)
    ensures n <= |values|
  {
    if values == [] then 0
    else (if IsNull(values[0]) then 1 else 0) + NullCount(values[1..])
  }

  /** Every cell is either missing or among the non-missing values. */
  lemma {:induction false} NullsAndNonNulls(values: seq<Cell>)
    ensures NullCount(values) + |NonNull(values)| == |values|
  {
    if values != [] {
      NullsAndNonNulls(values[1..]);
    }
  }

  /** The values `parseFloat` reads as numbers, in order. */
  function Numbers(s: seq<string>, isNumeric: string -> bool): (r: seq<string>)
    ensures |r| <= |s|
    ensures forall x :: x in r <==> x in s && isNumeric(x)
  {
    if s == [] then []
    else
      assert s == [s[0]] + s[1..];
      (if isNumeric(s[0]) then [s[0]] else []) + Numbers(s[1..], isNumeric)
  }

  /** No value occurs twice. */
  predicate NoDuplicates(s: seq<string>)
  {
    forall i, j :: 0 <= i < j < |s| ==> s[i] != s[j]
  }

  /** `[...new Set(s)]`: each value once, in order of first appearance. */
  function Distinct(s: seq<string>): (r: seq<string>)
    ensures |r| <= |s|
    ensures forall x :: x in r <==> x in s
    ensures NoDuplicates(r)
  {
    if s == [] then []
    else
      var d := Distinct(s[..|s| - 1]);
      var x := s[|s| - 1];
      assert s == s[..|s| - 1] + [x];
      if x in d then d else d + [x]
  }

  /** The position of the first occurrence of `x` in `s`. */
  function IndexOf(s: seq<string>, x: string): (k: nat)
    requires x in s
    ensures k < |s| && s[k] == x && x !in s[..k]
  {
    if s[0] == x then 0
    else
      var k' := IndexOf(s[1..], x);
      assert s[..k' + 1] == [s[0]] + s[1..][..k'];
      k' + 1
  }

  /** The first occurrence is the only position with `x` and no earlier `x`. */
  lemma IndexOfUnique(s: seq<string>, x: string, k: nat)
    requires k < |s| && s[k] == x && x !in s[..k]
    ensures IndexOf(s, x) == k
  {
    var m := IndexOf(s, x);
  }

  /** The distinct values are listed in the order in which they first appear. */
  lemma {:induction false} DistinctFirstAppearance(s: seq<string>)
    ensures forall i, j :: 0 <= i < j < |Distinct(s)| ==>
              IndexOf(s, Distinct(s)[i]) < IndexOf(s, Distinct(s)[j])
  {
    if s != [] {
      var n := |s| - 1;
      var p := s[..n];
      var x := s[n];
      DistinctFirstAppearance(p);
      var d := Distinct(p);
      assert s == p + [x];
      forall y | y in p
        ensures IndexOf(s, y) == IndexOf(p, y)
      {
        var k := IndexOf(p, y);
        assert s[..k] == p[..k];
        IndexOfUnique(s, y, k);
      }
      if x !in d {
        IndexOfUnique(s, x, n);
        var r := d + [x];
        forall i, j | 0 <= i < j < |r|
          ensures IndexOf(s, r[i]) < IndexOf(s, r[j])
        {
          assert r[i] == d[i];
          if j < |d| {
            assert r[j] == d[j];
          }
        }
      }
    }
  }

  /** A sequence without duplicates has as many elements as its set of values. */
  lemma {:induction false} NoDuplicatesCardinality(r: seq<string>)
    requires NoDuplicates(r)
    ensures |set x | x in r| == |r|
  {
    if r != [] {
      var n := |r| - 1;
      assert r == r[..n] + [r[n]];
      assert (set x | x in r) == (set x | x in r[..n]) + {r[n]};
      forall k | 0 <= k < n
        ensures r[..n][k] != r[n]
      {
        assert r[..n][k] == r[k];
      }
      NoDuplicatesCardinality(r[..n]);
    }
  }

  /** The number of distinct values is the number of different values. */
  lemma DistinctCardinality(s: seq<string>)
    ensures |Distinct(s)| == |set x | x in s|
  {
    NoDuplicatesCardinality(Distinct(s));
    assert (set x | x in Distinct(s)) == (set x | x in s);
  }

  // ---------------------------------------------------------------------------
  // classification
  // ---------------------------------------------------------------------------

  /** The `toFixed(2)` renderings of a numeric column's statistics. */
  datatype Summary = Summary(min: string, max: string, mean: string, q1: string, median: string, q3: string)

  /** A column's type together with its type-specific statistics. */
  datatype Stats =
    | Empty
    | Numeric(count: nat, summary: Summary)
    | Categorical(count: nat, uniqueCount: nat, values: seq<string>, hasMore: bool)
    | Text(count: nat, uniqueCount: nat, samples: seq<string>)

  /** `ColumnInfo`: the statistics with the null and total counts. */
  datatype ColumnInfo = ColumnInfo(stats: Stats, nullCount: nat, totalCount: nat)

  /** How many distinct values a categorical summary lists. */
  const MAX_CATEGORY_VALUES: nat := 20
  /** How many raw values a text summary keeps. */
  const MAX_TEXT_SAMPLES: nat := 5

  /** `numericCount / nonNullCount > 0.8`, over the integers. */
  predicate MostlyNumeric(numericCount: nat, nonNullCount: nat)
  {
    5 * numericCount > 4 * nonNullCount
  }

  /** `uniqueCount / nonNullCount < 0.5 || uniqueCount < 50`, over the integers. */
  predicate FewDistinct(uniqueCount: nat, nonNullCount: nat)
  {
    2 * uniqueCount < nonNullCount || uniqueCount < 50
  }

  /** The number of different non-missing values. */
  ghost function DifferentValues(values: seq<Cell>): nat
  {
    |set x | x in NonNull(values)|
  }

  /** `analyzeColumn(name, values)`; the column name is not used. */
  function AnalyzeColumn(values: seq<Cell>, isNumeric: string -> bool, summarize: seq<string> -> Summary)
    : (r: ColumnInfo)
    ensures r.totalCount == |values| && r.nullCount == NullCount(values)
    ensures r.stats.Empty? <==> forall i :: 0 <= i < |values| ==> IsNull(values[i])
    ensures r.stats.Numeric? ==>
              r.stats.count == |Numbers(NonNull(values), isNumeric)|
              && MostlyNumeric(r.stats.count, r.totalCount - r.nullCount)
              && r.stats.summary == summarize(Numbers(NonNull(values), isNumeric))
    ensures r.stats.Categorical? || r.stats.Text? ==>
              r.stats.count == r.totalCount - r.nullCount
              && r.stats.uniqueCount == DifferentValues(values)
              && !MostlyNumeric(|Numbers(NonNull(values), isNumeric)|, r.stats.count)
    ensures r.stats.Categorical? ==>
              r.stats.values == Take(Distinct(NonNull(values)), MAX_CATEGORY_VALUES)
              && (r.stats.hasMore <==> r.stats.uniqueCount > MAX_CATEGORY_VALUES)
    ensures r.stats.Text? ==> r.stats.samples == Take(NonNull(values), MAX_TEXT_SAMPLES)
  {
    var nonNull := NonNull(values);
    NullsAndNonNulls(values);
    var nullCount := |values| - |nonNull|;
    if |nonNull| == 0 then
      ColumnInfo(Empty, nullCount, |values|)
    else
      var numbers := Numbers(nonNull, isNumeric);
      if MostlyNumeric(|numbers|, |nonNull|) then
        ColumnInfo(Numeric(|numbers|, summarize(numbers)), nullCount, |values|)
      else
        var unique := Distinct(nonNull);
        DistinctCardinality(nonNull);
        if FewDistinct(|unique|, |nonNull|) then
          ColumnInfo(Categorical(|nonNull|, |unique|, Take(unique, MAX_CATEGORY_VALUES),
                                 |unique| > MAX_CATEGORY_VALUES), nullCount, |values|)
        else
          ColumnInfo(Text(|nonNull|, |unique|, Take(nonNull, MAX_TEXT_SAMPLES)), nullCount, |values|)
  }

  /** Null and non-null counts add up to the column length, for every type. */
  lemma CountsAddUp(values: seq<Cell>, isNumeric: string -> bool, summarize: seq<string> -> Summary)
    ensures var r := AnalyzeColumn(values, isNumeric, summarize);
            r.nullCount + |NonNull(values)| == r.totalCount
            && (r.stats.Categorical? || r.stats.Text? ==> r.nullCount + r.stats.count == r.totalCount)
            && (r.stats.Numeric? ==> r.stats.count <= r.totalCount - r.nullCount)
  {
    NullsAndNonNulls(values);
  }

  /**
   * A column with values that is not mostly numeric is categorical exactly
   * when fewer than half its values are different or it has fewer than 50
   * different values, and is text otherwise.
   */
  lemma CategoricalRule(values: seq<Cell>, isNumeric: string -> bool, summarize: seq<string> -> Summary)
    requires NonNull(values) != []
    requires !MostlyNumeric(|Numbers(NonNull(values), isNumeric)|, |NonNull(values)|)
    ensures var r := AnalyzeColumn(values, isNumeric, summarize);
            (r.stats.Categorical? <==> FewDistinct(DifferentValues(values), |NonNull(values)|))
            && (r.stats.Text? <==> !FewDistinct(DifferentValues(values), |NonNull(values)|))
  {
    DistinctCardinality(NonNull(values));
    NullsAndNonNulls(values);
  }

  /**
   * The listed categories: different non-missing values of the column, in
   * order of first appearance; there are more exactly when some value of the
   * column is not listed; and never more different values than values.
   */
  lemma CategoricalValues(values: seq<Cell>, isNumeric: string -> bool, summarize: seq<string> -> Summary)
    requires AnalyzeColumn(values, isNumeric, summarize).stats.Categorical?
    ensures var s := AnalyzeColumn(values, isNumeric, summarize).stats;
            var nonNull := NonNull(values);
            |s.values| <= MAX_CATEGORY_VALUES
            && s.uniqueCount <= s.count
            && NoDuplicates(s.values)
            && (forall x :: x in s.values ==> x in nonNull)
            && (forall i, j :: 0 <= i < j < |s.values| ==> IndexOf(nonNull, s.values[i]) < IndexOf(nonNull, s.values[j]))
            && (s.hasMore <==> exists x :: x in nonNull && x !in s.values)
  {
    var s := AnalyzeColumn(values, isNumeric, summarize).stats;
    var nonNull := NonNull(values);
    var d := Distinct(nonNull);
    DistinctCardinality(nonNull);
    DistinctFirstAppearance(nonNull);
    assert s.values == d[..|s.values|];
    forall x | x in s.values
      ensures x in nonNull
    {
      assert x in d;
    }
    forall i, j | 0 <= i < j < |s.values|
      ensures IndexOf(nonNull, s.values[i]) < IndexOf(nonNull, s.values[j])
    {
      assert s.values[i] == d[i] && s.values[j] == d[j];
    }
    if s.hasMore {
      var x := d[MAX_CATEGORY_VALUES];
      forall k | 0 <= k < |s.values|
        ensures s.values[k] != x
      {
        assert s.values[k] == d[k];
      }
      assert x in nonNull && x !in s.values;
    } else {
      assert s.values == d;
    }
  }

  /** Text samples are the first non-missing values, in order, repeats kept. */
  lemma TextSamples(values: seq<Cell>, isNumeric: string -> bool, summarize: seq<string> -> Summary)
    requires AnalyzeColumn(values, isNumeric, summarize).stats.Text?
    ensures var s := AnalyzeColumn(values, isNumeric, summarize).stats;
            |s.samples| == MAX_TEXT_SAMPLES
            && s.samples == NonNull(values)[..MAX_TEXT_SAMPLES]
            && s.uniqueCount <= s.count
  {
    DistinctCardinality(NonNull(values));
  }

  // ---------------------------------------------------------------------------
  // summaries
  // ---------------------------------------------------------------------------

  /** `formatColumnStats`: the one-line summary shown next to a column. */
  function FormatColumnStats(s: Stats): (r: string)
    ensures r == "" <==> s.Empty?
    ensures s.Categorical? ==> StartsWith(r, NatToString(s.uniqueCount) + " unique values | Top: ")
    ensures s.Categorical? ==>
              r[|NatToString(s.uniqueCount) + " unique values | Top: "|..] == Join(Take(s.values, 3), ", ")
    ensures s.Text? ==> EndsWith(r, " non-empty entries")
  {
    match s
    case Numeric(_, m) =>
      "Min: " + m.min + " | Max: " + m.max + " | Avg: " + m.mean + " | Median: " + m.median
    case Categorical(_, u, vs, _) =>
      NatToString(u) + " unique values | Top: " + Join(Take(vs, 3), ", ")
    case Text(c, u, _) =>
      NatToString(u) + " unique values | " + NatToString(c) + " non-empty entries"
    case Empty => ""
  }

  /** The count at the head of a categorical or text summary reads back as the unique count. */
  lemma FormatColumnStatsLeadingCount(s: Stats)
    requires s.Categorical? || s.Text?
    ensures var h := Split(FormatColumnStats(s), ' ')[0];
            h == NatToString(s.uniqueCount) && DigitsValue(h) == s.uniqueCount
  {
    match s
    case Categorical(_, u, vs, _) =>
      var rest := " unique values | Top: " + Join(Take(vs, 3), ", ");
      assert FormatColumnStats(s) == NatToString(u) + rest;
      LeadingNumber(u, rest);
    case Text(c, u, _) =>
      var rest := " unique values | " + NatToString(c) + " non-empty entries";
      assert FormatColumnStats(s) == NatToString(u) + rest;
      LeadingNumber(u, rest);
  }

  /**
   * After `N unique values | `, the text summary's first word is the
   * non-empty count, and it reads back; the summary ends `non-empty entries`.
   */
  lemma FormatColumnStatsTextCount(s: Stats)
    requires s.Text?
    ensures var head := NatToString(s.uniqueCount) + " unique values | ";
            var r := FormatColumnStats(s);
            StartsWith(r, head)
            && var h := Split(r[|head|..], ' ')[0];
               h == NatToString(s.count) && DigitsValue(h) == s.count
  {
    var head := NatToString(s.uniqueCount) + " unique values | ";
    var tail := NatToString(s.count) + " non-empty entries";
    var r := FormatColumnStats(s);
    assert r == head + tail;
    assert r[..|head|] == head && r[|head|..] == tail;
    LeadingNumber(s.count, " non-empty entries");
  }

  /** Each of the first three categories appears in the one-line summary. */
  lemma FormatColumnStatsListsTop(s: Stats, i: nat) returns (k: nat)
    requires s.Categorical? && i < Min(|s.values|, 3)
    ensures Occurs(s.values[i], FormatColumnStats(s), k)
  {
    var top := Take(s.values, 3);
    var head := NatToString(s.uniqueCount) + " unique values | Top: ";
    var k' := JoinOccurs(top, ", ", i);
    OccursWithin(s.values[i], head, Join(top, ", "), "", k');
    assert FormatColumnStats(s) == head + Join(top, ", ") + "";
    k := |head| + k';
  }

  /** `getColumnStatsText`: the prose description of a column's statistics. */
  function GetColumnStatsText(s: Stats): (r: string)
    ensures r == "" <==> s.Empty?
    ensures !s.Empty? ==> EndsWith(r, ".")
    ensures s.Categorical? && s.hasMore ==> EndsWith(r, ", and more.")
  {
    match s
    case Numeric(_, m) =>
      "This is a numeric column with values ranging from " + m.min + " to " + m.max
      + ". Average: " + m.mean + ", Median: " + m.median + ", Q1: " + m.q1 + ", Q3: " + m.q3 + "."
    case Categorical(_, u, vs, more) =>
      "This is a categorical column with " + NatToString(u) + " unique values: " + Join(vs, ", ")
      + (if more then ", and more" else "") + "."
    case Text(_, u, samples) =>
      "This is a text column with " + NatToString(u) + " unique values. Sample values: "
      + Join(Take(samples, 3), ", ") + "."
    case Empty => ""
  }

  /** Every listed category appears in the prose description. */
  lemma StatsTextListsCategories(s: Stats, i: nat) returns (k: nat)
    requires s.Categorical? && i < |s.values|
    ensures Occurs(s.values[i], GetColumnStatsText(s), k)
  {
    var head := "This is a categorical column with " + NatToString(s.uniqueCount) + " unique values: ";
    var tail := (if s.hasMore then ", and more" else "") + ".";
    var k' := JoinOccurs(s.values, ", ", i);
    OccursWithin(s.values[i], head, Join(s.values, ", "), tail, k');
    assert GetColumnStatsText(s) == head + Join(s.values, ", ") + tail;
    k := |head| + k';
  }

  /**
   * `getSampleValues`: numeric columns show their first five non-missing
   * raw values, categorical ones their first ten categories (with `, ...`
   * when there are more) and text ones their first five samples.
   */
  function GetSampleValues(s: Stats, values: seq<Cell>): (r: string)
    ensures s.Empty? ==> r == ""
    ensures s.Numeric? ==> r == Join(Take(NonNull(values), 5), ", ")
    ensures s.Categorical? ==> StartsWith(r, Join(Take(s.values, 10), ", "))
    ensures s.Categorical? && s.hasMore ==> r == Join(Take(s.values, 10), ", ") + ", ..."
    ensures s.Categorical? && !s.hasMore ==> r == Join(Take(s.values, 10), ", ")
    ensures s.Text? ==> r == Join(Take(s.samples, 5), "; ")
  {
    match s
    case Numeric(_, _) => Join(Take(NonNull(values), 5), ", ")
    case Categorical(_, _, vs, more) => Join(Take(vs, 10), ", ") + (if more then ", ..." else "")
    case Text(_, _, samples) => Join(Take(samples, 5), "; ")
    case Empty => ""
  }

  /** Each of the first ten categories appears in the rendered samples. */
  lemma SampleValuesListCategories(s: Stats, values: seq<Cell>, i: nat) returns (k: nat)
    requires s.Categorical? && i < Min(|s.values|, 10)
    ensures Occurs(s.values[i], GetSampleValues(s, values), k)
  {
    var shown := Take(s.values, 10);
    var k' := JoinOccurs(shown, ", ", i);
    var tail := if s.hasMore then ", ..." else "";
    OccursWithin(s.values[i], "", Join(shown, ", "), tail, k');
    assert GetSampleValues(s, values) == "" + Join(shown, ", ") + tail;
    k := k';
  }

  // ---------------------------------------------------------------------------
  // the sample table
  // ---------------------------------------------------------------------------

  /** A parsed CSV row: its keys in `Object.keys` order and its fields. */
  datatype CsvRow = CsvRow(keys: seq<string>, fields: map<string, string>)

  const MAX_DISPLAY_COLUMNS: nat := 15
  const MAX_SAMPLE_ROWS: nat := 5
  const MAX_CELL_LENGTH: nat := 60

  /** `truncate(val)`: values longer than 60 keep their first 57 characters and gain `...`. */
  function Truncate(v: string): (r: string)
    ensures |r| <= MAX_CELL_LENGTH
    ensures r == v || (|v| > MAX_CELL_LENGTH && r == v[..MAX_CELL_LENGTH - 3] + "...")
  {
    if |v| > MAX_CELL_LENGTH then v[..MAX_CELL_LENGTH - 3] + "..." else v
  }

  /** Truncation changes exactly the over-long values, and only once. */
  lemma TruncateIdempotent(v: string)
    ensures Truncate(v) == v <==> |v| <= MAX_CELL_LENGTH
    ensures Truncate(Truncate(v)) == Truncate(v)
  {
  }

  /** `row[c] ?? ''`. */
  function CellText(row: CsvRow, c: string): string
  {
    if c in row.fields then row.fields[c] else ""
  }

  /** `'-'.repeat(n)`. */
  function Dashes(n: nat): (r: string)
    ensures |r| == n && forall i :: 0 <= i < n ==> r[i] == '-'
  {
    seq(n, _ => '-')
  }

  /**
   * `(columns || Object.keys(data[0])).slice(0, 15)`: an absent column list
   * falls back to the first row's keys, while an empty list, being truthy in
   * JavaScript, is used as it is.
   */
  function DisplayColumns(data: seq<CsvRow>, columns: Option<seq<string>>): (cols: seq<string>)
    requires data != []
    ensures |cols| <= MAX_DISPLAY_COLUMNS
    ensures columns.Some? ==> cols == Take(columns.value, MAX_DISPLAY_COLUMNS)
    ensures columns.None? ==> cols == Take(data[0].keys, MAX_DISPLAY_COLUMNS)
  {
    var cols := if columns.Some? then columns.value else data[0].keys;
    Take(cols, MAX_DISPLAY_COLUMNS)
  }

  /**
   * The cells of the table line by line: the truncated header, the dash
   * separator (one dash per header character, at most 60), then one line
   * for each of the first five rows.
   */
  function TableCells(data: seq<CsvRow>, columns: Option<seq<string>>): (lines: seq<seq<string>>)
    requires data != []
    ensures |lines| == 2 + Min(|data|, MAX_SAMPLE_ROWS)
    ensures forall i :: 0 <= i < |lines| ==> |lines[i]| == |DisplayColumns(data, columns)|
    ensures forall i, j :: 0 <= i < |lines| && 0 <= j < |lines[i]| ==> |lines[i][j]| <= MAX_CELL_LENGTH
  {
    var cols := DisplayColumns(data, columns);
    var rows := Take(data, MAX_SAMPLE_ROWS);
    var header := seq(|cols|, j requires 0 <= j < |cols| => Truncate(cols[j]));
    var separator := seq(|cols|, j requires 0 <= j < |cols| => Dashes(Min(|cols[j]|, MAX_CELL_LENGTH)));
    var body := seq(|rows|, i requires 0 <= i < |rows| =>
                  seq(|cols|, j requires 0 <= j < |cols| => Truncate(CellText(rows[i], cols[j]))));
    [header, separator] + body
  }

  /** The table's lines as text: the cells joined by `' | '`. */
  function TableLines(data: seq<CsvRow>, columns: Option<seq<string>>): (lines: seq<string>)
    requires data != []
    ensures |lines| == 2 + Min(|data|, MAX_SAMPLE_ROWS)
  {
    var cells := TableCells(data, columns);
    seq(|cells|, i requires 0 <= i < |cells| => Join(cells[i], " | "))
  }

  /** `buildSampleRows(data, columns)`. */
  function BuildSampleRows(data: seq<CsvRow>, columns: Option<seq<string>>): (r: string)
    ensures r == "(no data)" <==> data == []
    ensures data != [] ==> '\n' in r
  {
    if data == [] then "(no data)"
    else
      var lines := TableLines(data, columns);
      assert Join(lines, "\n") == lines[0] + "\n" + Join(lines[1..], "\n");
      assert Join(lines, "\n")[|lines[0]|] == '\n';
      assert '\n' !in "(no data)";
      Join(lines, "\n")
  }

  /** No cell of the table contains a line break. */
  predicate SingleLineCells(data: seq<CsvRow>, columns: Option<seq<string>>)
    requires data != []
  {
    var cells := TableCells(data, columns);
    forall i, j :: 0 <= i < |cells| && 0 <= j < |cells[i]| ==> '\n' !in cells[i][j]
  }

  /**
   * When no cell holds a line break, the table has the header line, the
   * separator line and one line per sampled row, each of at most 15 cells of
   * at most 60 characters.
   */
  lemma SampleTableShape(data: seq<CsvRow>, columns: Option<seq<string>>)
    requires data != [] && SingleLineCells(data, columns)
    ensures Split(BuildSampleRows(data, columns), '\n') == TableLines(data, columns)
    ensures |Split(BuildSampleRows(data, columns), '\n')| == 2 + Min(|data|, MAX_SAMPLE_ROWS)
    ensures forall i :: 0 <= i < |TableCells(data, columns)| ==> |TableCells(data, columns)[i]| <= MAX_DISPLAY_COLUMNS
  {
    var cells := TableCells(data, columns);
    var lines := TableLines(data, columns);
    forall i | 0 <= i < |lines|
      ensures '\n' !in lines[i]
    {
      JoinExcludes(cells[i], " | ", '\n');
    }
    SplitJoin(lines, '\n');
  }

  /** `getSampleCount(data)`: the number of rows the table shows. */
  function GetSampleCount(data: seq<CsvRow>): (n: nat)
    ensures n <= MAX_SAMPLE_ROWS && n <= |data|
    ensures n == MAX_SAMPLE_ROWS || n == |data|
  {
    Min(MAX_SAMPLE_ROWS, |data|)
  }

  /** The sample count is the number of table lines below the header and separator. */
  lemma SampleCountMatchesTable(data: seq<CsvRow>, columns: Option<seq<string>>)
    requires data != []
    ensures |TableLines(data, columns)| == 2 + GetSampleCount(data)
  {
  }

  // ---------------------------------------------------------------------------
  // identifiers
  // ---------------------------------------------------------------------------

  /** A character an identifier keeps: ASCII letters and digits, and `_`. */
  predicate IdChar(c: char)
  {
    IsAsciiAlnum(c) || c == '_'
  }

  /** `name.replace(/[^a-zA-Z0-9]/g, '_')`. */
  function SanitizeId(name: string): (r: string)
    ensures |r| == |name|
    ensures forall i :: 0 <= i < |r| ==> IdChar(r[i])
  {
    seq(|name|, i requires 0 <= i < |name| => if IsAsciiAlnum(name[i]) then name[i] else '_')
  }

  /** A character survives exactly when it is an identifier character; letters and digits always do. */
  lemma SanitizeIdPointwise(name: string, i: nat)
    requires i < |name|
    ensures SanitizeId(name)[i] == name[i] <==> IdChar(name[i])
    ensures IsAsciiAlnum(name[i]) ==> SanitizeId(name)[i] == name[i]
    ensures !IsAsciiAlnum(name[i]) ==> SanitizeId(name)[i] == '_'
  {
  }

  /** Sanitising is idempotent, and its fixed points are the names made only of identifier characters. */
  lemma SanitizeIdIdempotent(name: string)
    ensures SanitizeId(SanitizeId(name)) == SanitizeId(name)
    ensures SanitizeId(name) == name <==> forall i :: 0 <= i < |name| ==> IdChar(name[i])
  {
    if SanitizeId(name) == name {
      forall i | 0 <= i < |name|
        ensures IdChar(name[i])
      {
        assert SanitizeId(name)[i] == name[i];
      }
    }
  }
}
