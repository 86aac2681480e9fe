/**
 * src/hooks/useComparisonState.ts: the state of comparison mode. It covers
 * the default scoring categories, the judge and evaluation prompts built
 * from them, the initial model list and the per-slot token accounting. It
 * also covers the sets and maps that record which slots are generating.
 *
 * The pure builders are functions. The hook's state is the class
 * `ComparisonStateHook`. Each `set...` updater of React becomes a method
 * that replaces the field it changes by the updater's result on the
 * current value.
 */
module ComparisonState {
  import opened Wrappers
  import opened Strings
  import opened ScoringCategories
  import MC = ModelColors
  import SH = StateHelpers

  /** `DEFAULT_SCORING_CATEGORIES`. */
  const DEFAULT_SCORING_CATEGORIES: seq<ScoringCategory> := [
    ScoringCategory("clarity", "Clarity",
                    "How clear and understandable the description is", 0, 10),
    ScoringCategory("completeness", "Completeness",
                    "How thoroughly the description covers the content", 0, 10),
    ScoringCategory("accuracy", "Accuracy",
                    "How accurately the description reflects the data", 0, 10),
    ScoringCategory("conciseness", "Conciseness",
                    "How concise the description is without losing meaning", 0, 10),
    ScoringCategory("plainLanguage", "Plain Language",
                    "How well the description uses plain, accessible language", 0, 10)
  ]

  /** The label prefix both prompt builders use when the caller gives none. */
  const DEFAULT_LABEL_PREFIX: string := "Model"

  const INITIAL_SLOT_COUNT: nat := 2

  // ---------------------------------------------------------------------------
  // generateJudgeSystemPrompt
  // ---------------------------------------------------------------------------

  const JUDGE_INTRO: string :=
    "You are an expert evaluator assessing metadata descriptions for government open data.\nYou will compare "
  const JUDGE_AFTER_COUNT: string := " candidate descriptions ("
  const JUDGE_AFTER_LABELS: string := ") and score each on the following metrics:\n\n"
  const JUDGE_FORMAT: string := "\n\nYou must respond with valid JSON in exactly this format:\n{\n"
  const JUDGE_WINNER_OPEN: string := ",\n    \"winner\": \"<"
  const JUDGE_WINNER_CLOSE: string :=
    ", or tie>\",\n    \"winnerReasoning\": \"<1-2 sentence explanation of why this candidate is better or why it's a tie>\"\n}"

  /** `${labelPrefix} ${i + 1}`. */
  function SlotLabel(labelPrefix: string, i: int): string
  {
    labelPrefix + " " + IntToString(i + 1)
  }

  function SlotLabels(labelPrefix: string, slotCount: nat): (r: seq<string>)
    ensures |r| == slotCount
    ensures forall i :: 0 <= i < slotCount ==> r[i] == SlotLabel(labelPrefix, i)
  {
    seq(slotCount, i => SlotLabel(labelPrefix, i))
  }

  /** `${i + 1}. ${cat.label.toUpperCase()} (${cat.minScore}-${cat.maxScore}) - ${cat.description}`. */
  function CategoryLine(cat: ScoringCategory, i: int): string
  {
    IntToString(i + 1) + ". " + ToUpper(cat.title) + " (" + IntToString(cat.minScore) + "-"
      + IntToString(cat.maxScore) + ") - " + cat.description
  }

  function CategoryLineList(cats: seq<ScoringCategory>): seq<string>
  {
    seq(|cats|, i requires 0 <= i < |cats| => CategoryLine(cats[i], i))
  }

  function CategoryLines(cats: seq<ScoringCategory>): string
  {
    Join(CategoryLineList(cats), "\n")
  }

  /** `        "${cat.key}": <${cat.minScore}-${cat.maxScore}>`. */
  function ScoreField(cat: ScoringCategory): string
  {
    "        \"" + cat.key + "\": <" + IntToString(cat.minScore) + "-" + IntToString(cat.maxScore) + ">"
  }

  function ScoreFields(cats: seq<ScoringCategory>): string
  {
    Join(seq(|cats|, i requires 0 <= i < |cats| => ScoreField(cats[i])), ",\n")
  }

  /** `model${i + 1}`: the key the backend's schema gives slot `i`. */
  function ModelKey(i: int): (k: string)
    ensures |k| == 5 + |IntToString(i + 1)| && k[..5] == "model" && k[5..] == IntToString(i + 1)
  {
    "model" + IntToString(i + 1)
  }

  /** The JSON block the judge is asked to fill in for slot `i`. */
  function ModelBlock(i: int, scoreFields: string, slotLabel: string): string
  {
    "    \"" + ModelKey(i) + "\": {\n" + scoreFields + ",\n        \"reasoning\": \"<brief explanation for "
      + slotLabel + " scores>\"\n    }"
  }

  function ModelBlockList(cats: seq<ScoringCategory>, slotCount: nat, labelPrefix: string): seq<string>
  {
    seq(slotCount, i => ModelBlock(i, ScoreFields(cats), SlotLabel(labelPrefix, i)))
  }

  function ModelBlocks(cats: seq<ScoringCategory>, slotCount: nat, labelPrefix: string): string
  {
    Join(ModelBlockList(cats, slotCount, labelPrefix), ",\n")
  }

  /** The slot numbers `1`, ..., `N`. */
  function WinnerOptionList(slotCount: nat): (r: seq<string>)
    ensures |r| == slotCount
    ensures forall i :: 0 <= i < slotCount ==> r[i] == IntToString(i + 1)
  {
    seq(slotCount, i => IntToString(i + 1))
  }

  /** `1, 2, ..., N`. */
  function WinnerOptions(slotCount: nat): string
  {
    Join(WinnerOptionList(slotCount), ", ")
  }

  /** The part of the judge prompt before the category lines. */
  function JudgeHead(slotCount: nat, labelPrefix: string): string
  {
    JUDGE_INTRO + IntToString(slotCount) + JUDGE_AFTER_COUNT + Join(SlotLabels(labelPrefix, slotCount), ", ")
      + JUDGE_AFTER_LABELS
  }

  /** The part of the judge prompt after the model blocks. */
  function JudgeEnd(slotCount: nat): string
  {
    JUDGE_WINNER_OPEN + WinnerOptions(slotCount) + JUDGE_WINNER_CLOSE
  }

  /** The part of the judge prompt after the category lines. */
  function JudgeTail(cats: seq<ScoringCategory>, slotCount: nat, labelPrefix: string): string
  {
    JUDGE_FORMAT + ModelBlocks(cats, slotCount, labelPrefix) + JudgeEnd(slotCount)
  }

  /** `generateJudgeSystemPrompt(categories, slotCount, labelPrefix)`. */
  function GenerateJudgeSystemPrompt(cats: seq<ScoringCategory>, slotCount: nat, labelPrefix: string): string
  {
    JudgeHead(slotCount, labelPrefix) + CategoryLines(cats) + JudgeTail(cats, slotCount, labelPrefix)
  }

  /** Every category has its numbered line, with its upper-cased label and its range, in the judge prompt. */
  lemma JudgePromptListsCategory(cats: seq<ScoringCategory>, slotCount: nat, labelPrefix: string, i: nat)
    returns (k: nat)
    requires i < |cats|
    ensures Occurs(CategoryLine(cats[i], i), GenerateJudgeSystemPrompt(cats, slotCount, labelPrefix), k)
  {
    var lines := CategoryLineList(cats);
    var k1 := JoinOccurs(lines, "\n", i);
    k := OccursIn(lines[i], GenerateJudgeSystemPrompt(cats, slotCount, labelPrefix),
                  JudgeHead(slotCount, labelPrefix), CategoryLines(cats), JudgeTail(cats, slotCount, labelPrefix), k1);
  }

  /** Every slot has its JSON block, under its own key, in the judge prompt. */
  lemma JudgePromptHasModelBlock(cats: seq<ScoringCategory>, slotCount: nat, labelPrefix: string, i: nat)
    returns (k: nat)
    requires i < slotCount
    ensures Occurs(ModelBlock(i, ScoreFields(cats), SlotLabel(labelPrefix, i)),
                   GenerateJudgeSystemPrompt(cats, slotCount, labelPrefix), k)
  {
    var blocks := ModelBlockList(cats, slotCount, labelPrefix);
    var k1 := JoinOccurs(blocks, ",\n", i);
    var k2 := OccursIn(blocks[i], JudgeTail(cats, slotCount, labelPrefix),
                       JUDGE_FORMAT, ModelBlocks(cats, slotCount, labelPrefix), JudgeEnd(slotCount), k1);
    k := OccursInSuffix(blocks[i], GenerateJudgeSystemPrompt(cats, slotCount, labelPrefix),
                        JudgeHead(slotCount, labelPrefix) + CategoryLines(cats), JudgeTail(cats, slotCount, labelPrefix), k2);
  }

  /**
   * The judge prompt ends with the `winner` field, whose options are the slot
   * numbers `1, ..., N` joined by `, `; slot `i`'s number is among them, at
   * offset `k` of the prompt inside that field.
   */
  lemma JudgePromptOffersWinner(cats: seq<ScoringCategory>, slotCount: nat, labelPrefix: string, i: nat)
    returns (k1: nat, k: nat)
    requires i < slotCount
    ensures var p := GenerateJudgeSystemPrompt(cats, slotCount, labelPrefix);
            EndsWith(p, JUDGE_WINNER_OPEN + Join(WinnerOptionList(slotCount), ", ") + JUDGE_WINNER_CLOSE)
            && Occurs(IntToString(i + 1), WinnerOptions(slotCount), k1)
            && k == |p| - |JudgeEnd(slotCount)| + |JUDGE_WINNER_OPEN| + k1
            && Occurs(IntToString(i + 1), p, k)
  {
    var p := GenerateJudgeSystemPrompt(cats, slotCount, labelPrefix);
    var front := JudgeHead(slotCount, labelPrefix) + CategoryLines(cats) + JUDGE_FORMAT
                 + ModelBlocks(cats, slotCount, labelPrefix);
    assert p == front + JudgeEnd(slotCount);
    k1 := JoinOccurs(WinnerOptionList(slotCount), ", ", i);
    k := FieldAtEnd(IntToString(i + 1), front, JUDGE_WINNER_OPEN, WinnerOptions(slotCount), JUDGE_WINNER_CLOSE, k1);
  }

  /** A text that ends with `open + w + close` has each occurrence in `w` at a known offset. */
  lemma FieldAtEnd(t: string, front: string, open: string, w: string, close: string, k1: nat) returns (k: nat)
    requires Occurs(t, w, k1)
    ensures var p := front + (open + w + close);
            EndsWith(p, open + w + close) && k == |front| + |open| + k1 && Occurs(t, p, k)
  {
    var p := front + (open + w + close);
    assert p[|p| - |open + w + close|..] == open + w + close;
    assert p == (front + open) + w + close;
    OccursWithin(t, front + open, w, close, k1);
    k := |front| + |open| + k1;
  }

  /** Different slots get different JSON keys. */
  lemma ModelKeysDistinct(i: int, j: int)
    requires i != j
    ensures ModelKey(i) != ModelKey(j)
  {
    IntToStringInjective(i + 1, j + 1);
  }

  /** With the default prefix, the slot labels of the prompt are the labels the results view shows. */
  lemma SlotLabelIsModelLabel(i: int)
    ensures SlotLabel(DEFAULT_LABEL_PREFIX, i) == MC.GetModelLabel(i, None)
  {
  }

  /** With the prefix `Prompt`, the slot labels are the default variant labels. */
  lemma SlotLabelIsVariantLabel(i: int)
    ensures SlotLabel("Prompt", i) == MC.DefaultVariantLabel(i)
  {
  }

  // ---------------------------------------------------------------------------
  // generateDefaultEvaluationPrompt
  // ---------------------------------------------------------------------------

  const EVAL_HEAD: string := "CONTEXT:\n{context}\n\n"
  const EVAL_TAIL: string := "\n\nEvaluate all candidates and respond with the JSON structure as specified."

  /** `{output_${i}}`: the zero-based placeholder for slot `i`'s output. */
  function Placeholder(i: int): (p: string)
    ensures |p| == 9 + |IntToString(i)|
    ensures p[..8] == "{output_" && p[8..|p| - 1] == IntToString(i) && p[|p| - 1] == '}'
  {
    "{output_" + IntToString(i) + "}"
  }

  /** `${labelPrefix.toUpperCase()} ${i + 1}:\n{output_${i}}`. */
  function CandidateBlock(labelPrefix: string, i: int): (b: string)
    ensures StartsWith(b, ToUpper(labelPrefix) + " " + IntToString(i + 1) + ":\n")
    ensures EndsWith(b, Placeholder(i))
  {
    var h := ToUpper(labelPrefix) + " " + IntToString(i + 1) + ":\n";
    assert (h + Placeholder(i))[..|h|] == h;
    h + Placeholder(i)
  }

  /** `generateDefaultEvaluationPrompt(slotCount, labelPrefix)`. */
  function GenerateDefaultEvaluationPrompt(slotCount: nat, labelPrefix: string): (r: string)
    ensures StartsWith(r, EVAL_HEAD) && EndsWith(r, EVAL_TAIL)
  {
    var body := Join(seq(slotCount, i => CandidateBlock(labelPrefix, i)), "\n\n");
    assert (EVAL_HEAD + body + EVAL_TAIL)[..|EVAL_HEAD|] == EVAL_HEAD;
    EVAL_HEAD + body + EVAL_TAIL
  }

  /** Slot `i`'s block, numbered `i + 1` and holding placeholder `i`, is in the evaluation prompt. */
  lemma EvaluationPromptHasBlock(slotCount: nat, labelPrefix: string, i: nat) returns (k: nat)
    requires i < slotCount
    ensures Occurs(CandidateBlock(labelPrefix, i), GenerateDefaultEvaluationPrompt(slotCount, labelPrefix), k)
  {
    var blocks := seq(slotCount, j => CandidateBlock(labelPrefix, j));
    var k' := JoinOccurs(blocks, "\n\n", i);
    OccursWithin(blocks[i], EVAL_HEAD, Join(blocks, "\n\n"), EVAL_TAIL, k');
    k := |EVAL_HEAD| + k';
  }

  /** Different slots have different placeholders. */
  lemma PlaceholdersDistinct(i: int, j: int)
    requires i != j
    ensures Placeholder(i) != Placeholder(j)
  {
    IntToStringInjective(i, j);
  }

  // ---------------------------------------------------------------------------
  // getInitialModels
  // ---------------------------------------------------------------------------

  /** `Array(slotCount).fill('')`. */
  function EmptyOutputs(slotCount: nat): (r: seq<string>)
    ensures |r| == slotCount
    ensures forall i :: 0 <= i < slotCount ==> r[i] == ""
  {
    seq(slotCount, _ => "")
  }

  /** `value || ''` for an environment variable that may be unset. */
  function OrEmpty(value: Option<string>): (r: string)
    ensures value.None? ==> r == ""
    ensures value.Some? ==> r == value.value
  {
    if value.Some? then value.value else ""
  }

  /** `.filter(Boolean)` on strings: the non-empty ones, in order. */
  function NonEmptyOnly(xs: seq<string>): (r: seq<string>)
    ensures |r| <= |xs|
    ensures forall x :: x in r <==> x in xs && x != ""
  {
    if xs == [] then []
    else (if xs[0] == "" then [] else [xs[0]]) + NonEmptyOnly(xs[1..])
  }

  lemma {:induction false} NonEmptyOnlyKeepsAll(xs: seq<string>)
    requires forall i :: 0 <= i < |xs| ==> xs[i] != ""
    ensures NonEmptyOnly(xs) == xs
  {
    if xs != [] {
      NonEmptyOnlyKeepsAll(xs[1..]);
    }
  }

  /** `.map(m => m.trim())`. */
  function TrimEach(pieces: seq<string>): (r: seq<string>)
    ensures |r| == |pieces|
    ensures forall i :: 0 <= i < |r| ==> r[i] == Trim(pieces[i], JS_WHITESPACE)
  {
    seq(|pieces|, i requires 0 <= i < |pieces| => Trim(pieces[i], JS_WHITESPACE))
  }

  /** `envModels.split(',').map(m => m.trim()).filter(Boolean)`. */
  function CommaList(envModels: string): (r: seq<string>)
    ensures forall m :: m in r ==> m != ""
  {
    NonEmptyOnly(TrimEach(Split(envModels, ',')))
  }

  /**
   * `getInitialModels(defaultCount)`, with the three environment variables
   * `VITE_COMPARISON_MODELS`, `VITE_COMPARISON_MODEL_A` and `_B` passed in.
   */
  function GetInitialModels(envModels: Option<string>, envA: Option<string>, envB: Option<string>, defaultCount: nat)
    : (r: seq<string>)
    ensures OrEmpty(envModels) != "" && |CommaList(OrEmpty(envModels))| >= 2 ==> r == CommaList(OrEmpty(envModels))
    ensures !(OrEmpty(envModels) != "" && |CommaList(OrEmpty(envModels))| >= 2) ==>
              if OrEmpty(envA) != "" || OrEmpty(envB) != "" then r == [OrEmpty(envA), OrEmpty(envB)]
              else r == EmptyOutputs(defaultCount)
  {
    var e := OrEmpty(envModels);
    if e != "" && |CommaList(e)| >= 2 then CommaList(e)
    else
      var a := OrEmpty(envA);
      var b := OrEmpty(envB);
      if a != "" || b != "" then [a, b]
      else EmptyOutputs(defaultCount)
  }

  /** Clean names written comma-separated are read back by `CommaList`. */
  lemma CommaListOfJoin(ms: seq<string>)
    requires |ms| >= 2
    requires forall i :: 0 <= i < |ms| ==> ms[i] != "" && ',' !in ms[i] && Trim(ms[i], JS_WHITESPACE) == ms[i]
    ensures CommaList(Join(ms, ",")) == ms && Join(ms, ",") != ""
  {
    var e := Join(ms, ",");
    assert Split(e, ',') == ms by { SplitJoin(ms, ','); }
    assert e != "" by { assert ',' in e; }
    assert TrimEach(ms) == ms by { TrimEachKeepsTrimmed(ms); }
    assert NonEmptyOnly(ms) == ms by { NonEmptyOnlyKeepsAll(ms); }
    CommaListOfPieces(e, ms);
  }

  /** Trimming pieces that are already trimmed changes nothing. */
  lemma TrimEachKeepsTrimmed(ms: seq<string>)
    requires forall i :: 0 <= i < |ms| ==> Trim(ms[i], JS_WHITESPACE) == ms[i]
    ensures TrimEach(ms) == ms
  {
  }

  lemma CommaListOfPieces(e: string, ms: seq<string>)
    requires Split(e, ',') == ms && TrimEach(ms) == ms && NonEmptyOnly(ms) == ms
    ensures CommaList(e) == ms
  {
  }

  /** A list of at least two clean names, written comma-separated, is read back as that list. */
  lemma InitialModelsRoundTrip(ms: seq<string>, envA: Option<string>, envB: Option<string>, defaultCount: nat)
    requires |ms| >= 2
    requires forall i :: 0 <= i < |ms| ==> ms[i] != "" && ',' !in ms[i] && Trim(ms[i], JS_WHITESPACE) == ms[i]
    ensures GetInitialModels(Some(Join(ms, ",")), envA, envB, defaultCount) == ms
  {
    CommaListOfJoin(ms);
  }

  // ---------------------------------------------------------------------------
  // createDefaultPromptVariant
  // ---------------------------------------------------------------------------

  /** `PromptTemplates`. */
  datatype PromptTemplates = PromptTemplates(systemPrompt: string, dataset: string, column: string)

  /** `PromptVariant`; its `label` is called `title` here, `label` being a keyword of Dafny. */
  datatype PromptVariant = PromptVariant(title: string, systemPrompt: string, datasetPrompt: string, columnPrompt: string)

  /** `createDefaultPromptVariant(index, templates)`. */
  function CreateDefaultPromptVariant(index: int, templates: Option<PromptTemplates>): (v: PromptVariant)
    ensures v.title == MC.DefaultVariantLabel(index)
    ensures templates.None? ==> v.systemPrompt == "" && v.datasetPrompt == "" && v.columnPrompt == ""
    ensures templates.Some? ==> v.systemPrompt == templates.value.systemPrompt
                                && v.datasetPrompt == templates.value.dataset
                                && v.columnPrompt == templates.value.column
  {
    match templates
    case None => PromptVariant("Prompt " + IntToString(index + 1), "", "", "")
    case Some(t) => PromptVariant("Prompt " + IntToString(index + 1), t.systemPrompt, t.dataset, t.column)
  }

  /** A fresh variant's label is the default, so the results view shows it without a suffix. */
  lemma DefaultVariantShowsPlainLabel(index: int, templates: Option<PromptTemplates>)
    ensures MC.GetVariantLabel(index, Some(CreateDefaultPromptVariant(index, templates).title))
         == MC.DefaultVariantLabel(index)
  {
  }

  // ---------------------------------------------------------------------------
  // token usage
  // ---------------------------------------------------------------------------

  /** `TokenUsage`. */
  datatype TokenUsage = TokenUsage(promptTokens: int, completionTokens: int, totalTokens: int)

  /** `ComparisonTokenUsage`: one record per slot, one for the judge and the running total. */
  datatype ComparisonTokenUsage = ComparisonTokenUsage(models: seq<TokenUsage>, judge: TokenUsage, total: TokenUsage)

  const EMPTY_TOKEN_USAGE := TokenUsage(0, 0, 0)

  /** Field-by-field addition, as the hook writes it out for each record. */
  function Plus(a: TokenUsage, b: TokenUsage): TokenUsage
  {
    TokenUsage(a.promptTokens + b.promptTokens, a.completionTokens + b.completionTokens, a.totalTokens + b.totalTokens)
  }

  /** `Array(slotCount).fill(null).map(() => ({...EMPTY_TOKEN_USAGE}))`. */
  function ZeroUsages(slotCount: nat): (r: seq<TokenUsage>)
    ensures |r| == slotCount
    ensures forall i :: 0 <= i < slotCount ==> r[i] == EMPTY_TOKEN_USAGE
  {
    seq(slotCount, _ => EMPTY_TOKEN_USAGE)
  }

  /** `createInitialTokenUsage(slotCount)`. */
  function CreateInitialTokenUsage(slotCount: nat): (u: ComparisonTokenUsage)
    ensures |u.models| == slotCount
    ensures forall i :: 0 <= i < slotCount ==> u.models[i] == EMPTY_TOKEN_USAGE
    ensures u.judge == EMPTY_TOKEN_USAGE && u.total == EMPTY_TOKEN_USAGE
  {
    ComparisonTokenUsage(ZeroUsages(slotCount), EMPTY_TOKEN_USAGE, EMPTY_TOKEN_USAGE)
  }

  /** The sum of the per-slot records. */
  function SumUsage(s: seq<TokenUsage>): TokenUsage
  {
    if s == [] then EMPTY_TOKEN_USAGE else Plus(SumUsage(s[..|s| - 1]), s[|s| - 1])
  }

  /** The total is the sum of the slots and the judge. */
  predicate Balanced(u: ComparisonTokenUsage)
  {
    Plus(SumUsage(u.models), u.judge) == u.total
  }

  /** `{type: 'model', index}` or `{type: 'judge'}`. */
  datatype Slot = ModelSlot(index: int) | JudgeSlot

  /** The record `addComparisonTokenUsage(slot, usage)` computes from the previous one. */
  function AddedUsage(prev: ComparisonTokenUsage, slot: Slot, usage: TokenUsage): (u: ComparisonTokenUsage)
    ensures u.total == Plus(prev.total, usage)
    ensures |u.models| == |prev.models|
    ensures slot.ModelSlot? && 0 <= slot.index < |prev.models| ==>
              u.models == prev.models[slot.index := Plus(prev.models[slot.index], usage)] && u.judge == prev.judge
    ensures slot.ModelSlot? && !(0 <= slot.index < |prev.models|) ==> u.models == prev.models && u.judge == prev.judge
    ensures slot.JudgeSlot? ==> u.models == prev.models && u.judge == Plus(prev.judge, usage)
  {
    var models :=
      if slot.ModelSlot? && 0 <= slot.index < |prev.models|
      then prev.models[slot.index := Plus(prev.models[slot.index], usage)]
      else prev.models;
    var judge := if slot.JudgeSlot? then Plus(prev.judge, usage) else prev.judge;
    ComparisonTokenUsage(models, judge, Plus(prev.total, usage))
  }

  lemma PlusAssociative(a: TokenUsage, b: TokenUsage, c: TokenUsage)
    ensures Plus(Plus(a, b), c) == Plus(a, Plus(b, c))
    ensures Plus(a, b) == Plus(b, a)
  {
  }

  /** Adding to one slot adds to the sum of the slots. */
  lemma {:induction false} SumUsageUpdate(s: seq<TokenUsage>, i: nat, usage: TokenUsage)
    requires i < |s|
    ensures SumUsage(s[i := Plus(s[i], usage)]) == Plus(SumUsage(s), usage)
  {
    var t := s[i := Plus(s[i], usage)];
    var n := |s| - 1;
    if i == n {
      assert t[..n] == s[..n];
    } else {
      assert t[..n] == s[..n][i := Plus(s[i], usage)];
      SumUsageUpdate(s[..n], i, usage);
    }
  }

  /** A fresh record is balanced. */
  lemma {:induction false} InitialUsageBalanced(slotCount: nat)
    ensures Balanced(CreateInitialTokenUsage(slotCount))
  {
    ZeroSum(slotCount);
  }

  lemma {:induction false} ZeroSum(n: nat)
    ensures SumUsage(ZeroUsages(n)) == EMPTY_TOKEN_USAGE
  {
    if n > 0 {
      ZeroSum(n - 1);
      assert ZeroUsages(n)[..n - 1] == ZeroUsages(n - 1);
    }
  }

  /** Adding usage for an existing slot or for the judge keeps the total the sum of its parts. */
  lemma AddKeepsBalance(prev: ComparisonTokenUsage, slot: Slot, usage: TokenUsage)
    requires Balanced(prev)
    requires slot.ModelSlot? ==> 0 <= slot.index < |prev.models|
    ensures Balanced(AddedUsage(prev, slot, usage))
  {
    var u := AddedUsage(prev, slot, usage);
    if slot.ModelSlot? {
      SumUsageUpdate(prev.models, slot.index, usage);
    }
    PlusAssociative(SumUsage(prev.models), prev.judge, usage);
    PlusAssociative(SumUsage(prev.models), usage, prev.judge);
  }

  /** Usage for a slot that has no record still reaches the total, which then exceeds its parts. */
  lemma OutOfRangeOnlyTotal(prev: ComparisonTokenUsage, i: int, usage: TokenUsage)
    requires Balanced(prev)
    requires !(0 <= i < |prev.models|)
    requires usage != EMPTY_TOKEN_USAGE
    ensures !Balanced(AddedUsage(prev, ModelSlot(i), usage))
  {
  }

  // ---------------------------------------------------------------------------
  // the per-slot column sets
  // ---------------------------------------------------------------------------

  /** `next.get(index) || []`. */
  function ColumnsOf(m: map<int, set<string>>, index: int): set<string>
  {
    if index in m then m[index] else {}
  }

  /** No slot is mapped to an empty set. */
  predicate NoEmptyEntries(m: map<int, set<string>>)
  {
    forall index :: index in m ==> m[index] != {}
  }

  /** `add` or `delete`, as the flag says: the `addToSet`/`removeFromSet` updaters. */
  function Toggled<T(!new)>(s: set<T>, x: T, on: bool): (r: set<T>)
    ensures x in r <==> on
    ensures r - {x} == s - {x}
  {
    if on then SH.AddToSet(x)(s) else SH.RemoveFromSet(x)(s)
  }

  /** The map the `setGeneratingColumnModel`/`setRegeneratingColumnModel` updaters return. */
  function ColumnsAfter(prev: map<int, set<string>>, index: int, columnName: string, on: bool)
    : (r: map<int, set<string>>)
    ensures NoEmptyEntries(prev) ==> NoEmptyEntries(r)
    ensures ColumnsOf(r, index) == Toggled(ColumnsOf(prev, index), columnName, on)
    ensures index in r <==> on || ColumnsOf(prev, index) - {columnName} != {}
    ensures forall j :: j != index ==> (j in r <==> j in prev) && ColumnsOf(r, j) == ColumnsOf(prev, j)
  {
    var cols := Toggled(ColumnsOf(prev, index), columnName, on);
    if |cols| > 0 then prev[index := cols] else prev - {index}
  }

  /** Unmarking the only column of the only slot leaves the map empty. */
  lemma LastColumnFinished(prev: map<int, set<string>>, index: int, columnName: string)
    requires NoEmptyEntries(prev)
    requires prev.Keys <= {index} && ColumnsOf(prev, index) <= {columnName}
    ensures ColumnsAfter(prev, index, columnName, false) == map[]
  {
    var r := ColumnsAfter(prev, index, columnName, false);
    assert index !in r;
    assert r.Keys == {};
  }

  /** Marking a column and unmarking it again restores the map. */
  lemma ColumnOnOffRestores(prev: map<int, set<string>>, index: int, columnName: string)
    requires NoEmptyEntries(prev)
    requires columnName !in ColumnsOf(prev, index)
    ensures ColumnsAfter(ColumnsAfter(prev, index, columnName, true), index, columnName, false) == prev
  {
    var r := ColumnsAfter(ColumnsAfter(prev, index, columnName, true), index, columnName, false);
    assert ColumnsOf(r, index) == ColumnsOf(prev, index);
    forall j | j in r ensures j in prev && r[j] == prev[j] {
      assert ColumnsOf(r, j) == ColumnsOf(prev, j);
    }
    assert r.Keys == prev.Keys;
  }

  // ---------------------------------------------------------------------------
  // the hook's state
  // ---------------------------------------------------------------------------

  datatype SubMode = Models | Prompts

  /**
   * A judge's verdict as the backend returns it, reduced to its winner and
   * reasoning; the per-slot scores are not part of this model.
   */
  datatype JudgeResult = JudgeResult(winner: string, winnerReasoning: string)

  /** `DatasetComparisonResult` and `ColumnComparisonResult`: one output per slot and the verdict. */
  datatype ComparisonResult = ComparisonResult(outputs: seq<string>, judgeResult: Option<JudgeResult>, isJudging: bool)

  /** `ComparisonConfig`. */
  datatype ComparisonConfig = ComparisonConfig(
    subMode: SubMode, models: seq<string>, promptModel: string, promptVariants: seq<PromptVariant>,
    judgeModel: string, judgeSystemPrompt: string, judgeEvaluationPrompt: string,
    scoringCategories: seq<ScoringCategory>)

  /** The environment variables the hook reads. */
  datatype Env = Env(comparisonModels: Option<string>, modelA: Option<string>, modelB: Option<string>,
                     judgeModel: Option<string>)

  /** `createInitialConfig(slotCount)`. */
  function CreateInitialConfig(slotCount: nat, env: Env): (c: ComparisonConfig)
    ensures c.subMode == Models && c.promptVariants == [] && c.promptModel == ""
    ensures c.models == GetInitialModels(env.comparisonModels, env.modelA, env.modelB, slotCount)
    ensures c.scoringCategories == DEFAULT_SCORING_CATEGORIES
    ensures c.judgeModel == OrEmpty(env.judgeModel)
    ensures c.judgeSystemPrompt == GenerateJudgeSystemPrompt(DEFAULT_SCORING_CATEGORIES, |c.models|, DEFAULT_LABEL_PREFIX)
    ensures c.judgeEvaluationPrompt == GenerateDefaultEvaluationPrompt(|c.models|, DEFAULT_LABEL_PREFIX)
  {
    var models := GetInitialModels(env.comparisonModels, env.modelA, env.modelB, slotCount);
    ComparisonConfig(Models, models, "", [], OrEmpty(env.judgeModel),
                     GenerateJudgeSystemPrompt(DEFAULT_SCORING_CATEGORIES, |models|, DEFAULT_LABEL_PREFIX),
                     GenerateDefaultEvaluationPrompt(|models|, DEFAULT_LABEL_PREFIX),
                     DEFAULT_SCORING_CATEGORIES)
  }

  /** The number of slots of a configuration. */
  function SlotCount(c: ComparisonConfig): nat
  {
    if c.subMode == Models then |c.models| else |c.promptVariants|
  }

  /** `comparisonSlotCount || INITIAL_SLOT_COUNT`: the number of slots a reset makes room for. */
  function ResetSlotCount(c: ComparisonConfig): (n: nat)
    ensures n >= 1
    ensures SlotCount(c) != 0 ==> n == SlotCount(c)
    ensures SlotCount(c) == 0 ==> n == INITIAL_SLOT_COUNT
  {
    if SlotCount(c) == 0 then INITIAL_SLOT_COUNT else SlotCount(c)
  }

  /** The state `useComparisonState` keeps. */
  class ComparisonStateHook {
    var comparisonEnabled: bool
    var config: ComparisonConfig
    var datasetComparison: ComparisonResult
    var columnComparisons: map<string, ComparisonResult>
    var tokenUsage: ComparisonTokenUsage
    var generatingDataset: set<int>
    var generatingColumns: map<int, set<string>>
    var regeneratingDataset: set<int>
    var regeneratingColumns: map<int, set<string>>
    var reJudgingDataset: bool
    var reJudgingColumns: set<string>

    /** The column maps never hold an empty set. */
    predicate Valid()
      reads this
    {
      NoEmptyEntries(generatingColumns) && NoEmptyEntries(regeneratingColumns)
    }

    /** Every field as the hook first sets it, the configuration from `createInitialConfig(INITIAL_SLOT_COUNT)`. */
    predicate Initial(env: Env)
      reads this
    {
      (comparisonEnabled, config, datasetComparison, columnComparisons, tokenUsage, generatingDataset,
       generatingColumns, regeneratingDataset, regeneratingColumns, reJudgingDataset, reJudgingColumns)
      == (false, CreateInitialConfig(INITIAL_SLOT_COUNT, env), ComparisonResult(EmptyOutputs(INITIAL_SLOT_COUNT), None, false),
          map[], CreateInitialTokenUsage(INITIAL_SLOT_COUNT), {}, map[], {}, map[], false, {})
    }

    /** The initial state of `useComparisonState`. */
    constructor (env: Env)
      ensures Initial(env)
    {
      comparisonEnabled := false;
      config := CreateInitialConfig(INITIAL_SLOT_COUNT, env);
      datasetComparison := ComparisonResult(EmptyOutputs(INITIAL_SLOT_COUNT), None, false);
      columnComparisons := map[];
      tokenUsage := CreateInitialTokenUsage(INITIAL_SLOT_COUNT);
      generatingDataset := {};
      generatingColumns := map[];
      regeneratingDataset := {};
      regeneratingColumns := map[];
      reJudgingDataset := false;
      reJudgingColumns := {};
    }

    /** `comparisonSlotCount`: the models in model mode, the prompt variants otherwise. */
    function ComparisonSlotCount(): (n: nat)
      reads this
      ensures config.subMode == Models ==> n == |config.models|
      ensures config.subMode == Prompts ==> n == |config.promptVariants|
    {
      SlotCount(config)
    }

    /** `isAnyModelGenerating`: some dataset or column generation or regeneration is running. */
    function IsAnyModelGenerating(): (b: bool)
      reads this
      ensures b <==> generatingDataset != {} || generatingColumns != map[]
                     || regeneratingDataset != {} || regeneratingColumns != map[]
    {
      |generatingDataset| > 0 || |generatingColumns| > 0 || |regeneratingDataset| > 0 || |regeneratingColumns| > 0
    }

    /**
     * `resetComparisonState()`: fresh outputs and token records for the
     * current number of slots (2 when there are none). The re-judging flags
     * and the configuration are kept.
     */
    method ResetComparisonState()
      modifies this`datasetComparison, this`columnComparisons, this`tokenUsage
      modifies this`generatingDataset, this`generatingColumns, this`regeneratingDataset, this`regeneratingColumns
      ensures datasetComparison == ComparisonResult(EmptyOutputs(ResetSlotCount(config)), None, false)
      ensures tokenUsage == CreateInitialTokenUsage(ResetSlotCount(config))
      ensures columnComparisons == map[]
      ensures generatingDataset == {} && generatingColumns == map[]
      ensures regeneratingDataset == {} && regeneratingColumns == map[]
      ensures config == old(config) && comparisonEnabled == old(comparisonEnabled)
      ensures reJudgingDataset == old(reJudgingDataset) && reJudgingColumns == old(reJudgingColumns)
      ensures Valid() && !IsAnyModelGenerating()
      ensures |tokenUsage.models| == |datasetComparison.outputs| >= 1
    {
      var n := ResetSlotCount(config);
      datasetComparison := ComparisonResult(EmptyOutputs(n), None, false);
      columnComparisons := map[];
      tokenUsage := CreateInitialTokenUsage(n);
      generatingDataset := {};
      generatingColumns := map[];
      regeneratingDataset := {};
      regeneratingColumns := map[];
    }

    /** `addComparisonTokenUsage(slot, usage)`. */
    method AddComparisonTokenUsage(slot: Slot, usage: TokenUsage)
      modifies this`tokenUsage
      ensures tokenUsage == AddedUsage(old(tokenUsage), slot, usage)
      ensures old(Balanced(tokenUsage)) && (slot.ModelSlot? ==> 0 <= slot.index < |old(tokenUsage).models|)
              ==> Balanced(tokenUsage)
    {
      if Balanced(tokenUsage) && (slot.ModelSlot? ==> 0 <= slot.index < |tokenUsage.models|) {
        AddKeepsBalance(tokenUsage, slot, usage);
      }
      tokenUsage := AddedUsage(tokenUsage, slot, usage);
    }

    /** `setGeneratingDatasetModel(index, isGenerating)`. */
    method SetGeneratingDatasetModel(index: int, isGenerating: bool)
      modifies this`generatingDataset
      ensures generatingDataset == Toggled(old(generatingDataset), index, isGenerating)
    {
      generatingDataset := Toggled(generatingDataset, index, isGenerating);
    }

    /** `setGeneratingColumnModel(index, columnName, isGenerating)`. */
    method SetGeneratingColumnModel(index: int, columnName: string, isGenerating: bool)
      modifies this`generatingColumns
      ensures generatingColumns == ColumnsAfter(old(generatingColumns), index, columnName, isGenerating)
      ensures old(Valid()) ==> Valid()
    {
      generatingColumns := ColumnsAfter(generatingColumns, index, columnName, isGenerating);
    }

    /** `setRegeneratingDatasetModel(index, isRegenerating)`. */
    method SetRegeneratingDatasetModel(index: int, isRegenerating: bool)
      modifies this`regeneratingDataset
      ensures regeneratingDataset == Toggled(old(regeneratingDataset), index, isRegenerating)
    {
      regeneratingDataset := Toggled(regeneratingDataset, index, isRegenerating);
    }

    /** `setRegeneratingColumnModel(index, columnName, isRegenerating)`. */
    method SetRegeneratingColumnModel(index: int, columnName: string, isRegenerating: bool)
      modifies this`regeneratingColumns
      ensures regeneratingColumns == ColumnsAfter(old(regeneratingColumns), index, columnName, isRegenerating)
      ensures old(Valid()) ==> Valid()
    {
      regeneratingColumns := ColumnsAfter(regeneratingColumns, index, columnName, isRegenerating);
    }

    /** `setReJudgingColumn(columnName, isReJudging)`. */
    method SetReJudgingColumn(columnName: string, isReJudging: bool)
      modifies this`reJudgingColumns
      ensures reJudgingColumns == Toggled(old(reJudgingColumns), columnName, isReJudging)
    {
      reJudgingColumns := Toggled(reJudgingColumns, columnName, isReJudging);
    }
  }

  /** Once every slot has finished, nothing is reported as generating. */
  method FinishingAllStopsGenerating(h: ComparisonStateHook, index: int, columnName: string)
    requires h.Valid()
    requires h.generatingDataset <= {index} && h.regeneratingDataset == {} && h.regeneratingColumns == map[]
    requires h.generatingColumns.Keys <= {index} && ColumnsOf(h.generatingColumns, index) <= {columnName}
    modifies h
    ensures !h.IsAnyModelGenerating()
  {
    LastColumnFinished(h.generatingColumns, index, columnName);
    h.SetGeneratingDatasetModel(index, false);
    h.SetGeneratingColumnModel(index, columnName, false);
  }
}
