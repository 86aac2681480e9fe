# AI Metadata Improvement Tool — a Dafny model of its core

The AI Metadata Improvement Tool helps staff of the Washington State Open Data
Portal write plain-language descriptions for datasets and their columns. A
React frontend analyses a CSV file column by column and builds prompts from it.
It can send the same request to several models and have a judge model score the
candidates. A FastAPI backend relays the requests. It also routes a model name
to a local runner (Ollama or LM Studio) when that runner has the model loaded.

This project models the deterministic core of both halves and proves what it
promises:

- **Local-provider model lists** (`Listing`, `LocalProviders`, `OllamaProvider`,
  `LmStudio`, `ModelMatch`).
  - Each provider keeps a cached set of model names and the time it was fetched.
    The set is reused while it is non-empty and younger than the TTL. Otherwise the
    runner is probed again.
  - A failed probe leaves the empty set, stamped with the current time.
  - Ollama names `base:tag` also register `base`.
  - A requested Ollama name resolves exactly, then as `name:latest`, then to
    some tagged variant `name:…`.
  - A model LM Studio lists is routed to LM Studio's URL and placeholder key.
  - `backend/local_providers.py` is the consolidated version. It replaces its
    cache sets wholesale, so its caches are plain `set` fields of one class.
  - The older `backend/ollama_provider.py` and `backend/lm_studio.py` clear the cached
    set *in place* on failure. There the set is an object (`NameSet`) that
    earlier callers may still hold, so that aliasing can be seen.
- **Backend request handling** (`BackendMain`).
  - The request-or-environment fallback of the connection settings.
  - The ordered missing-configuration list and its HTTP 400.
  - The order of the system and user messages.
  - The judge's user prompt and its zero usage default.
  - The CSV file-name rule, the CSV fetch errors and the SPA catch-all.
- **Column analysis** (`ColumnAnalyzer`, and `ColumnAnalyzerLegacy` for the older
  copy under `ai-metadata-improvement-tool/`).
  - Null counts and the categorical-versus-text rule.
  - First-appearance distinct values, the summaries, the sample table and `sanitizeId`.
- **Prompt and label builders** (`Prompts`, `ModelColors`, and the prompt
  generators in `ComparisonState`).
- **Comparison bookkeeping** (`ComparisonState`): the state of the
  `useComparisonState` hook as a class (`ComparisonStateHook`) whose methods
  update its fields. This covers token accounting, the per-slot "generating" sets
  and maps, the reset, and the choice of the initial model list.
- **Scoring-category edits** (`ScoringCategories`): `toCamelCase`, `parseInt`
  as the score handlers use it, and the list edits.
- **State helpers** (`StateHelpers`): set add/remove updaters and error statuses.

`Wrappers` (Option, Result) and `Strings` (split, join, trim, case mapping,
decimal rendering) are shared helpers.

External inputs are parameters:
- The clock is `now: int`.
- A network listing is a `Probe`: `Failed`, or `Listed(entries)`, where an entry
  is `None` when it has no name/id key.
- An upstream HTTP answer is an `Upstream` value.
- Environment variables are `Option<string>` parameters (`Env`).
- `parseFloat` is an `isNumeric` predicate parameter. The float statistics are
  strings rendered by a `summarize` parameter.

Where the code and its comments disagree, the model follows the code:
- The comment at `backend/lm_studio.py:39` says a failure is cached "to avoid
  retrying every request". Yet an empty set is never fresh
  (`backend/lm_studio.py:21`), so the next call probes again.
  `OllamaProvider.FailureClearsHandedOutSet` states this for the Ollama copy, and
  `Listing.EmptyNeverFresh` and `LocalProviders.EmptyCacheAlwaysProbes` state it
  for the shared rule.

Some facts about the code that a reader might expect otherwise:
- No module puts the providers together into one resolver. Neither provider
  module calls the other, and `backend/main.py` calls neither.
- An empty cached set is never served as fresh, whatever its timestamp.
- No provider module checks for a credential before it probes its runner.
- The comparison hook keeps its models as a `models` list, and its per-slot keys
  are `model1..modelN`.

The older column analyser's `formatColumnStats`, `getColumnStatsText` and
`sanitizeId` are textually the same as the newer ones. They are modelled once,
in `ColumnAnalyzer`. `ColumnAnalyzerLegacy` models the older `analyzeColumn`,
which has no null counts, and states its summaries through those shared
functions.

## Model

| member | source | states |
|---|---|---|
| Listing.TruthyIds | backend/local_providers.py:45 | the listed ids that are present and non-empty, all of them and nothing else |
| Listing.BaseName | backend/local_providers.py:70-71 | the part before the first `:`; it has no `:`, is a prefix of the name followed by `:` when the name has one, and is the whole name otherwise |
| Listing.ExpandAliases | backend/local_providers.py:68-71 | the expanded set holds every fetched name and the base of every tagged one, and adds only untagged names |
| Listing.ExpandAliasesIdempotent | backend/local_providers.py:68-73 | expanding an expanded set changes nothing, so re-expanding the cached set on the fresh path is harmless |
| Listing.ExpandedIsFixedPoint | backend/local_providers.py:68-71 | a set is unchanged by expansion iff it already holds the base of each of its tagged names |
| Listing.TagNamesAreExpandedIds | backend/ollama_provider.py:35-42 | the names the `/api/tags` loop collects are exactly the expansion of the non-empty names |
| Listing.AllIds | backend/lm_studio.py:29 | the set of all ids, and no set at all when some entry lacks an `id` (the KeyError) |
| Listing.EmptyNeverFresh | backend/local_providers.py:39 | an empty cached set is never fresh, whatever the timestamps |
| Listing.FreshWindow | backend/local_providers.py:39 | a non-empty cached set is fresh iff `now < ts + ttl` |
| LocalProviders.FetchModels | backend/local_providers.py:31-51 | fresh cache: the same set and timestamp; otherwise stamped `now`, with the truthy ids on success and the empty set on failure |
| LocalProviders.FreshPathIgnoresProbe | backend/local_providers.py:38-40 | on the fresh path the result does not depend on the network at all |
| LocalProviders.EmptyCacheAlwaysProbes | backend/local_providers.py:39 | with an empty cache the result is the probe's outcome stamped `now`, for any old timestamp |
| LocalProviders.SecondCallWithinTtl | backend/local_providers.py:39-47 | after a refresh that listed some model, a call within the TTL returns the stored set and timestamp whatever the network says |
| LocalProviders.TtlScenario | backend/local_providers.py:39 | with TTL 30 a non-empty set fetched at 0 is reused at 29 and refreshed at 31 |
| LocalProviders.Expand | backend/local_providers.py:68-71 | the loop that adds base names computes exactly `ExpandAliases` |
| LocalProviders.LocalProviders.constructor | backend/local_providers.py:12-25 | both caches start empty with timestamp 0, under the given hosts and TTLs |
| LocalProviders.LocalProviders.FetchOllamaModels | backend/local_providers.py:57-74 | the stored Ollama set becomes the expansion of what `_fetch_models` returns, with its timestamp; the fresh path leaves both unchanged; the stored set stays expanded |
| LocalProviders.LocalProviders.IsOllamaAvailable | backend/local_providers.py:92-97 | an empty name gives None with no fetch; otherwise the cache is refreshed as above and the answer resolves the name against it |
| LocalProviders.LocalProviders.FetchLmStudioModels | backend/local_providers.py:103-115 | the stored LM Studio set and timestamp become exactly what `_fetch_models` returns |
| LocalProviders.LocalProviders.ResolveClientParams | backend/local_providers.py:118-133 | an empty model keeps the caller's URL and key with no fetch; otherwise a listed model gets LM Studio's URL and `lm-studio`, any other the caller's values |
| ModelMatch.FindOllamaModel | backend/local_providers.py:77-89 | the answer obeys exact > `:latest` > some tagged variant > None |
| ModelMatch.ResolvedIsMember | backend/local_providers.py:82-89 | any answer is a member of the available set |
| ModelMatch.ResolvesNoneIff | backend/local_providers.py:82-89 | no answer iff neither the name, nor `name:latest`, nor any `name:…` is available |
| ModelMatch.BaseOfExpandedResolvesToItself | backend/local_providers.py:68-83 | after expansion, the base of a fetched `base:tag` resolves to `base` itself by the exact tier |
| ModelMatch.ExpandedMatchesBothForms | backend/local_providers.py:68-83 | after expansion both `base:tag` and `base` resolve to themselves |
| ModelMatch.ExpandedBaseResolvesToItself | backend/local_providers.py:68-83 | fetching only `base:tag` makes a request for `base` answer `base`, not `base:tag` |
| ModelMatch.LatestTierExample | backend/ollama_provider.py:65-66 | `llama3.2` against `{llama3.2:latest}` resolves to `llama3.2:latest` |
| OllamaProvider.CollectTagNames | backend/ollama_provider.py:35-42 | the loop over the listing adds exactly the non-empty names and their bases |
| OllamaProvider.OllamaCache.constructor | backend/ollama_provider.py:16-19 | the cached set starts as a new empty set with timestamp 0 |
| OllamaProvider.OllamaCache.FetchOllamaModels | backend/ollama_provider.py:22-54 | fresh: the same set object untouched; success: a new set object of the collected names stamped `now`, the old object unchanged; failure: the same object cleared in place, stamped `now` |
| OllamaProvider.OllamaCache.IsOllamaAvailable | backend/ollama_provider.py:73-81 | an empty name gives None with no fetch; otherwise the cache changes exactly as in `_fetch_ollama_models` (fresh: the same object and contents; success: a new object of the listed names and bases stamped `now`; failure: the same object emptied, stamped `now`), and the answer resolves the name against that set; after a failed probe it is None unless the old set was fresh |
| OllamaProvider.StaleCacheFindsListedModel | backend/ollama_provider.py:73-81 | on a stale cache, a listing that names `llama3` makes `llama3` resolve to itself, and the cache holds exactly `{llama3}` stamped `now` |
| OllamaProvider.FailureClearsHandedOutSet | backend/ollama_provider.py:47-54 | a failure empties the very set an earlier call handed out, and the cache is not fresh even a full TTL later |
| LmStudio.RefreshedIds | backend/lm_studio.py:27-37 | a failed probe or an entry without an id gives no set; a complete listing gives exactly its ids |
| LmStudio.MissingIdFailsRefresh | backend/lm_studio.py:29 | one entry without an `id` makes the whole refresh fail |
| LmStudio.LmStudioCache.constructor | backend/lm_studio.py:12-13 | the cached set starts as a new empty set with timestamp 0 |
| LmStudio.LmStudioCache.FetchLmStudioModels | backend/lm_studio.py:16-42 | fresh: unchanged; success: a new set object of the ids stamped `now`; failure: the same object cleared in place, stamped `now` |
| LmStudio.LmStudioCache.ResolveClientParams | backend/lm_studio.py:45-60 | an empty model keeps the caller's values with no fetch; otherwise the cache changes exactly as in `_fetch_lm_studio_models` (fresh: the same object and contents; success: a new object of the ids stamped `now`; failure: the same object cleared, stamped `now`), and the answer is LM Studio's URL and `lm-studio` iff the model is in that set |
| LmStudio.FreshCacheRoutesListedModel | backend/lm_studio.py:53-58 | a model already in a fresh cache is routed to LM Studio whatever the network says, and the cache is untouched |
| LmStudio.StaleCacheRoutesListedModel | backend/lm_studio.py:53-58 | on a stale cache, a model the new listing names is routed to LM Studio and becomes the whole cached set, stamped `now` |
| BackendMain.OrFallback | backend/main.py:120-122 | the request value when it is present and non-empty, the environment value otherwise |
| BackendMain.ResolveConfig | backend/main.py:203-205 | each resolved setting is empty iff both its request value and its environment value are empty |
| BackendMain.MissingConfig | backend/main.py:125-131 | each label is listed iff its setting is empty, in the order Base URL, API Key, Model; nothing is listed iff all three are set |
| BackendMain.ValidateConfig | backend/main.py:125-138 | success iff all three settings are non-empty, returning them unchanged; otherwise status 400 whose detail is exactly the fixed prefix, the labels of the empty settings in order joined by `, `, and the fixed suffix, so it names every missing setting |
| BackendMain.ListedLabelOccurs | backend/main.py:136 | every entry of the joined list occurs in the error detail |
| BackendMain.BuildMessages | backend/main.py:141-144 | the user prompt is always the last message; a system message comes first iff the system prompt is present and not blank under Python's `strip` |
| BackendMain.JudgeUserPromptHoldsInputs | backend/main.py:223-234 | the context and both candidates appear at fixed offsets of the judge's user prompt, and its length is theirs plus that of the fixed text |
| BackendMain.JudgeUserPromptInjective | backend/main.py:223-234 | the prompt determines the context and candidates once the lengths of the first two are known |
| BackendMain.UsageOrZero | backend/main.py:265-271 | all three usage counts are 0 when the response carries no usage, and the reported ones otherwise |
| BackendMain.FileName | backend/main.py:106 | the file name is never empty and contains no `/` unless it is the default |
| BackendMain.FileNameIsLastSegment | backend/main.py:106 | for a URL not ending in `/` the name is its last segment: a suffix with no `/`, preceded by `/`; otherwise it is `remote-data.csv` |
| BackendMain.FetchCsv | backend/main.py:81-111 | empty URL: 400 `URL is required`; no app token: 500 with the fixed `SOCRATA_APP_TOKEN not configured` detail; success iff the upstream answered 200, giving its text and the file name; a non-200 status or request error gives the matching error |
| BackendMain.ServeSpa | backend/main.py:311-327 | `api/…` and `health` give 404; any other path is served as a file iff it is one, and gives 404 iff it is no file and there is no `index.html` |
| ColumnAnalyzer.NonNull | src/utils/columnAnalyzer.ts:4-6 | the non-null values are exactly the present non-empty cells |
| ColumnAnalyzer.NullsAndNonNulls | src/utils/columnAnalyzer.ts:4-9 | the null count plus the number of non-null values is the number of cells |
| ColumnAnalyzer.Numbers | src/utils/columnAnalyzer.ts:16-18 | the values that parse as numbers, and only those |
| ColumnAnalyzer.Distinct | src/utils/columnAnalyzer.ts:36 | the same values as the input, without duplicates |
| ColumnAnalyzer.DistinctFirstAppearance | src/utils/columnAnalyzer.ts:36 | the distinct values come in the order of their first appearance |
| ColumnAnalyzer.DistinctCardinality | src/utils/columnAnalyzer.ts:36-37 | the number of distinct values is the size of the set of values |
| ColumnAnalyzer.AnalyzeColumn | src/utils/columnAnalyzer.ts:3-57 | both counts; empty iff every cell is null; the numeric test on the parsable share; categorical values are the first 20 distinct with `hasMore` iff more than 20; text samples are the first 5 |
| ColumnAnalyzer.CountsAddUp | src/utils/columnAnalyzer.ts:4-9 | `nullCount + count == totalCount` for categorical and text columns; the numeric count never exceeds the non-null count |
| ColumnAnalyzer.CategoricalRule | src/utils/columnAnalyzer.ts:39 | a non-numeric, non-empty column is categorical iff `2*unique < nonNull` or `unique < 50`, and text otherwise |
| ColumnAnalyzer.CategoricalValues | src/utils/columnAnalyzer.ts:41-46 | at most 20 values, no duplicates, all taken from the column in first-appearance order; `hasMore` iff some value is left out |
| ColumnAnalyzer.TextSamples | src/utils/columnAnalyzer.ts:51-55 | a text column's samples are its first 5 non-null values, duplicates kept |
| ColumnAnalyzer.FormatColumnStats | src/utils/columnAnalyzer.ts:59-71 | empty iff the column is empty; a categorical summary is its fixed head (the unique count, then `unique values`, a bar and `Top:`) followed by exactly the first three (or fewer) values joined by `, `; a text summary ends ` non-empty entries` |
| ColumnAnalyzer.FormatColumnStatsTextCount | src/utils/columnAnalyzer.ts:66-68 | a text summary starts with the unique count, `unique values` and a bar, and the word after that reads back as the non-empty count |
| ColumnAnalyzer.FormatColumnStatsLeadingCount | src/utils/columnAnalyzer.ts:65-68 | the first word of a categorical or text summary reads back as the unique count |
| ColumnAnalyzer.FormatColumnStatsListsTop | src/utils/columnAnalyzer.ts:65 | each of the first three categorical values occurs in the summary |
| ColumnAnalyzer.GetColumnStatsText | src/utils/columnAnalyzer.ts:73-85 | empty iff the column is empty, else a sentence ending in `.`, in `, and more.` when values were cut |
| ColumnAnalyzer.StatsTextListsCategories | src/utils/columnAnalyzer.ts:79 | every kept categorical value occurs in the text |
| ColumnAnalyzer.GetSampleValues | src/utils/columnAnalyzer.ts:110-122 | empty for an empty column; the first 5 non-null values joined by `, `; exactly the first 10 categorical values joined by `, `, followed by `, ...` iff `hasMore`; or the first 5 samples joined by `; ` |
| ColumnAnalyzer.SampleValuesListCategories | src/utils/columnAnalyzer.ts:116 | each of the first ten categorical values occurs in the sample text |
| ColumnAnalyzer.Truncate | src/utils/columnAnalyzer.ts:94-95 | at most 60 characters: the value itself, or its first 57 followed by `...` |
| ColumnAnalyzer.TruncateIdempotent | src/utils/columnAnalyzer.ts:94-95 | a value is kept iff it has at most 60 characters, and truncating twice is truncating once |
| ColumnAnalyzer.DisplayColumns | src/utils/columnAnalyzer.ts:90-91 | the first 15 of the given columns, or of the first row's keys |
| ColumnAnalyzer.TableCells | src/utils/columnAnalyzer.ts:97-101 | `2 + min(5, rows)` lines of one cell per displayed column, each cell at most 60 characters |
| ColumnAnalyzer.TableLines | src/utils/columnAnalyzer.ts:97-103 | `2 + min(5, rows)` lines |
| ColumnAnalyzer.BuildSampleRows | src/utils/columnAnalyzer.ts:87-104 | `(no data)` iff there are no rows; otherwise a multi-line table |
| ColumnAnalyzer.SampleTableShape | src/utils/columnAnalyzer.ts:87-104 | when no cell holds a newline, splitting the table at newlines gives back its `2 + min(5, rows)` lines of at most 15 cells |
| ColumnAnalyzer.GetSampleCount | src/utils/columnAnalyzer.ts:106-108 | `min(5, rows)` |
| ColumnAnalyzer.SampleCountMatchesTable | src/utils/columnAnalyzer.ts:106-108 | the table has a header, a separator and `getSampleCount` data lines |
| ColumnAnalyzer.SanitizeId | src/utils/columnAnalyzer.ts:124-126 | same length, every character in `[A-Za-z0-9_]` |
| ColumnAnalyzer.SanitizeIdPointwise | src/utils/columnAnalyzer.ts:124-126 | alphanumerics are kept and every other character becomes `_` |
| ColumnAnalyzer.SanitizeIdIdempotent | src/utils/columnAnalyzer.ts:124-126 | sanitising twice is sanitising once; a name is unchanged iff it is already an id |
| ColumnAnalyzerLegacy.AnalyzeColumn | ai-metadata-improvement-tool/src/utils/columnAnalyzer.ts:3-54 | the older classification: empty iff every cell is null, the same numeric and categorical rules, the first 20 distinct values and the first 5 samples |
| ColumnAnalyzerLegacy.EmptySummaries | ai-metadata-improvement-tool/src/utils/columnAnalyzer.ts:56-82 | both summaries are empty iff every cell of the column is null |
| ColumnAnalyzerLegacy.CategoricalSummaryShowsFirstValues | ai-metadata-improvement-tool/src/utils/columnAnalyzer.ts:60-62 | the summary of a categorical column lists each of its first three distinct values |
| Prompts.ModifierText | src/utils/prompts.ts:75-79 | no text iff there is no modifier |
| Prompts.CustomText | src/utils/prompts.ts:80-82 | text iff the instruction is present and non-empty |
| Prompts.AppendPromptModifiers | src/utils/prompts.ts:70-84 | the two conditional appends compute exactly the modified prompt |
| Prompts.ModifiedExtendsPrompt | src/utils/prompts.ts:75-83 | the result starts with the prompt and its modifier paragraph, and is exactly that without an instruction |
| Prompts.ModifiedUnchangedIff | src/utils/prompts.ts:72-83 | the prompt comes back unchanged iff there is no modifier and no instruction |
| Prompts.ModifiedEndsWithInstruction | src/utils/prompts.ts:80-82 | a present instruction comes last, after `Additional instruction: ` |
| Prompts.ModifierRecoverable | src/utils/prompts.ts:75-78 | different modifiers give different prompts |
| Prompts.InstructionRecoverable | src/utils/prompts.ts:80-82 | different non-empty instructions give different prompts |
| ModelColors.JsRemainder | src/utils/modelColors.ts:83 | JavaScript's `%`: the Euclidean remainder for a non-negative dividend, minus that of the negated dividend otherwise |
| ModelColors.GetModelColor | src/utils/modelColors.ts:82-84 | `MODEL_COLORS[i mod 5]` for `i >= 0`; for a negative index a colour only at multiples of 5 |
| ModelColors.ColorsPeriodic | src/utils/modelColors.ts:82-84 | colours repeat with period 5 |
| ModelColors.FirstFiveColorsDiffer | src/utils/modelColors.ts:82-84 | slots 0 to 4 get five different colours |
| ModelColors.GetModelLabel | src/utils/modelColors.ts:86-92 | `Model n`, followed by ` (name)` iff the name is non-empty |
| ModelColors.ModelLabelShowsIndex | src/utils/modelColors.ts:86-92 | the word after `Model ` is the slot number |
| ModelColors.ModelLabelsDiffer | src/utils/modelColors.ts:86-92 | different slots get different labels, whatever the names |
| ModelColors.GetVariantLabel | src/utils/modelColors.ts:94-101 | always starts with `Prompt n`, and is exactly that iff the label is absent, empty or that default |
| ModelColors.VariantLabelRecoverable | src/utils/modelColors.ts:94-101 | a custom label can be read back from between the parentheses |
| ComparisonState.ModelKey | src/hooks/useComparisonState.ts:68 | `model` followed by the slot number |
| ComparisonState.JudgePromptListsCategory | src/hooks/useComparisonState.ts:58-60 | every category's numbered line, label upper-cased with its score range, occurs in the judge prompt |
| ComparisonState.JudgePromptHasModelBlock | src/hooks/useComparisonState.ts:62-70 | every slot's JSON block, with all score fields, occurs in the judge prompt |
| ComparisonState.JudgePromptOffersWinner | src/hooks/useComparisonState.ts:72-82 | the judge prompt ends with the `winner` field, whose options are exactly the slot numbers `1, ..., N` joined by `, `; each slot number occurs inside that field, at a stated offset of the prompt |
| ComparisonState.ModelKeysDistinct | src/hooks/useComparisonState.ts:67-68 | the JSON keys of different slots differ |
| ComparisonState.SlotLabelIsModelLabel | src/hooks/useComparisonState.ts:57 | with the default prefix a slot label is the label `getModelLabel` gives without a name |
| ComparisonState.SlotLabelIsVariantLabel | src/hooks/useComparisonState.ts:57 | with prefix `Prompt` a slot label is the default variant label |
| ComparisonState.Placeholder | src/hooks/useComparisonState.ts:92 | `{output_i}` with the zero-based index |
| ComparisonState.CandidateBlock | src/hooks/useComparisonState.ts:91-92 | starts with the upper-cased prefix and the one-based number, and ends with the placeholder |
| ComparisonState.GenerateDefaultEvaluationPrompt | src/hooks/useComparisonState.ts:87-101 | starts with the context block and ends with the fixed instruction |
| ComparisonState.EvaluationPromptHasBlock | src/hooks/useComparisonState.ts:91-98 | every slot's candidate block occurs in the evaluation prompt |
| ComparisonState.PlaceholdersDistinct | src/hooks/useComparisonState.ts:92 | different slots get different placeholders |
| ComparisonState.NonEmptyOnly | src/hooks/useComparisonState.ts:107 | keeps exactly the non-empty strings |
| ComparisonState.CommaList | src/hooks/useComparisonState.ts:107 | every listed model is non-empty |
| ComparisonState.GetInitialModels | src/hooks/useComparisonState.ts:103-116 | the comma list when it has at least two models; else `[A, B]` when either legacy value is set; else `n` empty strings |
| ComparisonState.CommaListOfJoin | src/hooks/useComparisonState.ts:107 | splitting a comma-joined list of trimmed names gives them back |
| ComparisonState.InitialModelsRoundTrip | src/hooks/useComparisonState.ts:103-108 | a comma list of two or more such names is taken as the model list, whatever the legacy values |
| ComparisonState.CreateDefaultPromptVariant | src/hooks/useComparisonState.ts:141-152 | label `Prompt i+1`; the templates' texts, or empty ones when there are none |
| ComparisonState.DefaultVariantShowsPlainLabel | src/hooks/useComparisonState.ts:147 | a default variant is displayed with the plain default label |
| ComparisonState.CreateInitialTokenUsage | src/hooks/useComparisonState.ts:133-139 | `n` zero per-model records and zero judge and total records |
| ComparisonState.InitialUsageBalanced | src/hooks/useComparisonState.ts:133-139 | initially the total equals the sum of the model records and the judge record |
| ComparisonState.AddedUsage | src/hooks/useComparisonState.ts:216-244 | the total grows by the usage; exactly the addressed model record (if it exists) or the judge record grows; nothing else changes |
| ComparisonState.AddKeepsBalance | src/hooks/useComparisonState.ts:212-245 | adding to an existing slot or to the judge keeps the total equal to the sum of the parts |
| ComparisonState.OutOfRangeOnlyTotal | src/hooks/useComparisonState.ts:222-230 | a non-zero usage for a missing model slot grows only the total, so the total no longer equals the sum of the parts |
| ComparisonState.Toggled | src/hooks/useComparisonState.ts:250-252 | the element is in the result iff switched on, and nothing else changes |
| ComparisonState.ColumnsAfter | src/hooks/useComparisonState.ts:259-266 | the slot's column set is toggled, its key kept iff the set stays non-empty, other slots untouched, and no empty entry appears |
| ComparisonState.LastColumnFinished | src/hooks/useComparisonState.ts:263-265 | switching off the last running column leaves the map empty |
| ComparisonState.ColumnOnOffRestores | src/hooks/useComparisonState.ts:258-268 | switching a new column on and then off restores the map |
| ComparisonState.CreateInitialConfig | src/hooks/useComparisonState.ts:118-131 | model sub-mode, no variants, the initial models, the default categories, the judge model, and both prompts generated for that many slots |
| ComparisonState.ResetSlotCount | src/hooks/useComparisonState.ts:198 | the slot count, or 2 when it is 0 |
| ComparisonState.ComparisonStateHook.constructor | src/hooks/useComparisonState.ts:156-189 | every field as the hook first sets it |
| ComparisonState.ComparisonStateHook.ComparisonSlotCount | src/hooks/useComparisonState.ts:163-167 | the number of models in model mode, of prompt variants otherwise |
| ComparisonState.ComparisonStateHook.IsAnyModelGenerating | src/hooks/useComparisonState.ts:192-195 | true iff one of the four generating collections is non-empty |
| ComparisonState.ComparisonStateHook.ResetComparisonState | src/hooks/useComparisonState.ts:197-210 | fresh outputs and token records for the reset slot count, all generating collections empty, configuration and re-judging state kept |
| ComparisonState.ComparisonStateHook.AddComparisonTokenUsage | src/hooks/useComparisonState.ts:212-245 | the token record becomes `AddedUsage` of the old one and stays balanced when the slot exists |
| ComparisonState.ComparisonStateHook.SetGeneratingDatasetModel | src/hooks/useComparisonState.ts:248-255 | the slot is added or removed, nothing else |
| ComparisonState.ComparisonStateHook.SetGeneratingColumnModel | src/hooks/useComparisonState.ts:258-268 | the map becomes `ColumnsAfter` of the old one, and keeps having no empty entry |
| ComparisonState.ComparisonStateHook.SetRegeneratingDatasetModel | src/hooks/useComparisonState.ts:271-278 | the slot is added or removed, nothing else |
| ComparisonState.ComparisonStateHook.SetRegeneratingColumnModel | src/hooks/useComparisonState.ts:281-291 | as for generating columns |
| ComparisonState.ComparisonStateHook.SetReJudgingColumn | src/hooks/useComparisonState.ts:294-301 | the column is added or removed, nothing else |
| ComparisonState.FinishingAllStopsGenerating | src/hooks/useComparisonState.ts:192-195 | once the only running slot finishes its dataset and last column, nothing is reported as generating |
| ScoringCategories.Capitalize | src/components/PromptEditor/ScoringCategoryEditor.tsx:16 | same letters ignoring case; first not lower-case, rest lower-cased |
| ScoringCategories.CamelWords | src/components/PromptEditor/ScoringCategoryEditor.tsx:13-17 | one word out per word in, each equal to it ignoring case |
| ScoringCategories.WordsConcat | src/components/PromptEditor/ScoringCategoryEditor.tsx:10-12 | the words of the trimmed label, joined, are its non-whitespace characters |
| ScoringCategories.ToCamelCaseKeepsLetters | src/components/PromptEditor/ScoringCategoryEditor.tsx:9-19 | the key is the label's non-whitespace characters, recased |
| ScoringCategories.ToCamelCaseNoWhitespace | src/components/PromptEditor/ScoringCategoryEditor.tsx:9-19 | the key contains no whitespace |
| ScoringCategories.ToCamelCaseBlank | src/components/PromptEditor/ScoringCategoryEditor.tsx:9-19 | the key is empty iff the label is blank |
| ScoringCategories.ToCamelCaseStartsLower | src/components/PromptEditor/ScoringCategoryEditor.tsx:13-15 | a non-empty key does not start with a capital |
| ScoringCategories.ParseIntSkipsWhitespace | src/components/PromptEditor/ScoringCategoryEditor.tsx:37 | leading whitespace does not change what `parseInt` reads |
| ScoringCategories.ParseIntRoundTrip | src/components/PromptEditor/ScoringCategoryEditor.tsx:37 | the decimal rendering of any integer, followed by a non-digit tail, parses back to it |
| ScoringCategories.ParseIntRejects | src/components/PromptEditor/ScoringCategoryEditor.tsx:37-38 | input starting with anything but whitespace, a sign or a digit is NaN |
| ScoringCategories.ParseIntLoneSign | src/components/PromptEditor/ScoringCategoryEditor.tsx:37-38 | a sign not followed by a digit is NaN |
| ScoringCategories.HandleLabelChange | src/components/PromptEditor/ScoringCategoryEditor.tsx:22-27 | same length; only entry `index` changes, taking the new label and its camelCase key |
| ScoringCategories.HandleDescriptionChange | src/components/PromptEditor/ScoringCategoryEditor.tsx:29-34 | same length; only the description at `index` changes |
| ScoringCategories.HandleMinScoreChange | src/components/PromptEditor/ScoringCategoryEditor.tsx:36-44 | nothing is emitted iff the input is NaN; otherwise only the minimum at `index` changes, to the parsed value |
| ScoringCategories.HandleMaxScoreChange | src/components/PromptEditor/ScoringCategoryEditor.tsx:46-54 | nothing is emitted iff the input is NaN; otherwise only the maximum at `index` changes, to the parsed value |
| ScoringCategories.HandleRemove | src/components/PromptEditor/ScoringCategoryEditor.tsx:56-58 | drops exactly position `index`; an out-of-range index changes nothing |
| ScoringCategories.HandleAdd | src/components/PromptEditor/ScoringCategoryEditor.tsx:60-62 | the old list followed by one new category with empty texts and range 1-10 |
| ScoringCategories.RemoveUndoesAdd | src/components/PromptEditor/ScoringCategoryEditor.tsx:56-62 | removing the added last entry restores the list |
| ScoringCategories.EditsCommute | src/components/PromptEditor/ScoringCategoryEditor.tsx:22-34 | edits at different positions commute |
| ScoringCategories.LabelChangeKeepsKeysDerived | src/components/PromptEditor/ScoringCategoryEditor.tsx:22-27 | if every key is the camelCase of its label, it stays so after a label change |
| ScoringCategories.DescriptionChangeKeepsKeysDerived | src/components/PromptEditor/ScoringCategoryEditor.tsx:29-34 | likewise after a description change |
| ScoringCategories.MinScoreChangeKeepsKeysDerived | src/components/PromptEditor/ScoringCategoryEditor.tsx:36-44 | likewise after a minimum-score change |
| ScoringCategories.MaxScoreChangeKeepsKeysDerived | src/components/PromptEditor/ScoringCategoryEditor.tsx:46-54 | likewise after a maximum-score change |
| ScoringCategories.RemoveKeepsKeysDerived | src/components/PromptEditor/ScoringCategoryEditor.tsx:56-58 | likewise after a removal |
| ScoringCategories.AddKeepsKeysDerived | src/components/PromptEditor/ScoringCategoryEditor.tsx:60-62 | likewise after an addition, the new entry's empty key being the camelCase of its empty label |
| StateHelpers.ErrorText | src/utils/stateHelpers.ts:12 | an Error's message, `Unknown error` for anything else thrown |
| StateHelpers.HandleRegenerationError | src/utils/stateHelpers.ts:6-15 | the given type and `Error regenerating: ` followed by the error text |
| StateHelpers.HandleJudgeError | src/utils/stateHelpers.ts:20-28 | type warning and `Judge error: ` followed by the error text |
| StateHelpers.MessagesIdentifyTheirSource | src/utils/stateHelpers.ts:6-28 | a regeneration status never reads like a judge status, and each determines its error text |
| StateHelpers.AddToSet | src/utils/stateHelpers.ts:33-35 | the update gives exactly `prev ∪ {item}` |
| StateHelpers.RemoveFromSet | src/utils/stateHelpers.ts:40-46 | the update gives exactly `prev \ {item}` |
| StateHelpers.RemoveUndoesAdd | src/utils/stateHelpers.ts:33-46 | removing a newly added item restores the set |
| StateHelpers.UpdatersIdempotent | src/utils/stateHelpers.ts:33-46 | applying either update twice is applying it once |

## Left out

- Network and HTTP I/O: the OpenAI and httpx clients, the SSE stream of `openai_chat_stream` and the judge completion call in `backend/main.py`. A probe or upstream answer is a parameter.
- The judge response itself (`JudgeMetrics`, JSON decoding and its error statuses, the scores): it is I/O and JSON plumbing. Only the prompt, the configuration check and the usage default are modelled.
- Concurrency: async scheduling and racing cache refreshes. Each call is modelled as one sequential step.
- Logging, the health endpoint, CORS, module-load validation, static mounting and `serve_root`.
- Environment reads (`os.getenv`, `import.meta.env`): their values are parameters.
- Floating point: numeric column statistics, `toFixed` and the numeric sort. `parseFloat` is a predicate parameter, and the rendered statistics come from a `summarize` parameter. The numeric branches of the summaries are stated only as non-empty.
- CSV parsing, the other React components and hooks, pricing, and the Express server in `server/`: they are UI or library calls.
- Composition of the Ollama and LM Studio providers into one resolver: neither provider module nor `backend/main.py` does it.
- The order of matching tier 3: `ModelMatch.Resolves` allows any tagged variant. Python's set iteration order is not modelled.
- Monotonic time as a float: the clock is an integer.
- `ComparisonState.ComparisonStateHook.constructor`: states the initial fields. That the column maps have no empty entry (`Valid`) follows from their being empty, and is not stated separately.
- The raw setters the hook returns (`setComparisonEnabled`, `setComparisonConfig` and so on): they are React state setters with no logic.
- StateHelpers.HandleRegenerationError: the default `'error'` type of the optional argument is not modelled; callers pass the type.
- ComparisonState.CommaList: on its own it states only that no empty model is listed. Its exact result is tied to the input by `CommaListOfJoin` for lists of trimmed names without commas.
- ColumnAnalyzer.BuildSampleRows: states only the empty case and that there is a line break. The line structure is stated by `SampleTableShape`, for cells that contain no newline.
- JavaScript `String.prototype.toLowerCase`/`toUpperCase` and the `\s` class: case mapping is ASCII only, and whitespace is an explicit character set.
- UTF-16 code units: a Dafny string is a sequence of code points, but JavaScript's `length`, `slice` and non-`u` regular expressions count UTF-16 code units. For names and values with characters outside the Basic Multilingual Plane, the model differs from the source: `ColumnAnalyzer.SanitizeId` turns such a character into one `_` where `sanitizeId` writes two, and `ColumnAnalyzer.Truncate` and the separator row of `ColumnAnalyzer.TableCells` count it as one character where the source counts two.
- A `null` or non-string `id` in an LM Studio listing: a `Probe` entry is a string or `None`, and `None` stands for a missing key. In the source, `"id": null` raises no `KeyError`, so the refresh succeeds and caches the other ids together with `None`. The model treats that entry as missing: `Listing.AllIds` fails the whole refresh and `LmStudio.LmStudioCache.FetchLmStudioModels` clears the cache. An Ollama entry with a `null` name is skipped like a missing one, as in the source.
