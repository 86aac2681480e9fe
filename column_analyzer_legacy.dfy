/**
 * ai-metadata-improvement-tool/src/utils/columnAnalyzer.ts: the older copy
 * of the column analyser. Its `analyzeColumn` returns the type and the
 * statistics only, without the null and total counts; its classification
 * branches, thresholds and slices are those of src/utils/columnAnalyzer.ts.
 * Its `formatColumnStats`, `getColumnStatsText` and `sanitizeId` have the
 * same text as the current ones and are the same members of `ColumnAnalyzer`.
 */
module ColumnAnalyzerLegacy {
  import opened Wrappers
  import opened Strings
  import C = ColumnAnalyzer

  /** The older `analyzeColumn`: the statistics of the current analyser, without the counts. */
  function AnalyzeColumn(values: seq<C.Cell>, isNumeric: string -> bool, summarize: seq<string> -> C.Summary)
    : (r: C.Stats)
    ensures r.Empty? <==> forall i :: 0 <= i < |values| ==> C.IsNull(values[i])
    ensures r.Numeric? ==> C.MostlyNumeric(r.count, |C.NonNull(values)|)
    ensures r.Categorical? || r.Text? ==>
              !C.MostlyNumeric(|C.Numbers(C.NonNull(values), isNumeric)|, |C.NonNull(values)|)
              && r.count == |C.NonNull(values)| && r.uniqueCount <= r.count
              && (r.Categorical? <==> C.FewDistinct(C.DifferentValues(values), |C.NonNull(values)|))
    ensures r.Categorical? ==>
              r.values == C.Take(C.Distinct(C.NonNull(values)), C.MAX_CATEGORY_VALUES)
              && (r.hasMore <==> r.uniqueCount > C.MAX_CATEGORY_VALUES)
    ensures r.Text? ==> r.samples == C.Take(C.NonNull(values), C.MAX_TEXT_SAMPLES)
  {
    var info := C.AnalyzeColumn(values, isNumeric, summarize);
    C.CountsAddUp(values, isNumeric, summarize);
    if info.stats.Categorical? || info.stats.Text? then
      C.CategoricalRule(values, isNumeric, summarize);
      C.DistinctCardinality(C.NonNull(values));
      info.stats
    else
      info.stats
  }

  /** Both summaries of a column are empty exactly when none of its values is present. */
  lemma EmptySummaries(values: seq<C.Cell>, isNumeric: string -> bool, summarize: seq<string> -> C.Summary)
    ensures var s := AnalyzeColumn(values, isNumeric, summarize);
            (C.FormatColumnStats(s) == "" <==> forall i :: 0 <= i < |values| ==> C.IsNull(values[i]))
            && (C.GetColumnStatsText(s) == "" <==> forall i :: 0 <= i < |values| ==> C.IsNull(values[i]))
  {
  }

  /**
   * For a categorical column, each of its first three different values, in
   * order of first appearance, appears in the one-line summary.
   */
  lemma CategoricalSummaryShowsFirstValues(values: seq<C.Cell>, isNumeric: string -> bool,
                                           summarize: seq<string> -> C.Summary, i: nat)
    returns (k: nat)
    requires AnalyzeColumn(values, isNumeric, summarize).Categorical?
    requires i < C.Min(|C.Distinct(C.NonNull(values))|, 3)
    ensures Occurs(C.Distinct(C.NonNull(values))[i],
                   C.FormatColumnStats(AnalyzeColumn(values, isNumeric, summarize)), k)
  {
    var s := AnalyzeColumn(values, isNumeric, summarize);
    assert s.values[i] == C.Distinct(C.NonNull(values))[i];
    k := C.FormatColumnStatsListsTop(s, i);
  }
}
