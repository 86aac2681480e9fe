/**
 * backend/main.py: the request handling of the FastAPI backend that is not
 * I/O. It covers the request-or-environment fallback for the model
 * configuration, the list of missing settings and the 400 it leads to, the
 * order of the chat messages and the judge's user prompt. It also covers
 * the checks and the file name of `fetch_csv`, the token usage reported
 * when the SDK gives none, and the refusal of API paths by the SPA
 * catch-all route.
 *
 * What the network and the file system answer are parameters.
 */
module BackendMain {
  import opened Wrappers
  import opened Strings

  /** `HTTPException(status_code, detail)`. */
  datatype HttpError = HttpError(status: int, detail: string)

  /** The three settings a chat or judge call needs. */
  datatype ModelConfig = ModelConfig(baseUrl: string, apiKey: string, model: string)

  // ---------------------------------------------------------------------------
  // configuration fallback and validation
  // ---------------------------------------------------------------------------

  /** `request.x or ENV_X`: the request's value unless it is `None` or empty. */
  function OrFallback(requestValue: Option<string>, envValue: string): (r: string)
    ensures requestValue.Some? && requestValue.value != "" ==> r == requestValue.value
    ensures !(requestValue.Some? && requestValue.value != "") ==> r == envValue
  {
    if requestValue.Some? && requestValue.value != "" then requestValue.value else envValue
  }

  /** The configuration of a request, `AZURE_ENDPOINT`, `AZURE_KEY` and `AZURE_MODEL` filling the gaps. */
  function ResolveConfig(baseUrl: Option<string>, apiKey: Option<string>, model: Option<string>, env: ModelConfig)
    : (c: ModelConfig)
    ensures c.baseUrl == "" <==> OrFallback(baseUrl, "") == "" && env.baseUrl == ""
    ensures c.apiKey == "" <==> OrFallback(apiKey, "") == "" && env.apiKey == ""
    ensures c.model == "" <==> OrFallback(model, "") == "" && env.model == ""
  {
    ModelConfig(OrFallback(baseUrl, env.baseUrl), OrFallback(apiKey, env.apiKey), OrFallback(model, env.model))
  }

  const BASE_URL_LABEL: string := "Base URL (AZURE_ENDPOINT)"
  const API_KEY_LABEL: string := "API Key (AZURE_KEY)"
  const MODEL_LABEL: string := "Model (AZURE_MODEL)"
  const MISSING_PREFIX: string := "Missing required configuration: "
  const MISSING_SUFFIX: string := ". Please set these in the environment or enter them in the UI."

  /** The labels of the empty settings, in the order base URL, key, model. */
  function MissingLabels(c: ModelConfig): seq<string>
  {
    (if c.baseUrl == "" then [BASE_URL_LABEL] else [])
    + (if c.apiKey == "" then [API_KEY_LABEL] else [])
    + (if c.model == "" then [MODEL_LABEL] else [])
  }

  /** `missing_config`, built by appending the label of each empty setting in turn. */
  method MissingConfig(c: ModelConfig) returns (missing: seq<string>)
    ensures BASE_URL_LABEL in missing <==> c.baseUrl == ""
    ensures API_KEY_LABEL in missing <==> c.apiKey == ""
    ensures MODEL_LABEL in missing <==> c.model == ""
    ensures missing == [] <==> c.baseUrl != "" && c.apiKey != "" && c.model != ""
    ensures missing == MissingLabels(c)
  {
    missing := [];
    if c.baseUrl == "" {
      missing := missing + [BASE_URL_LABEL];
    }
    if c.apiKey == "" {
      missing := missing + [API_KEY_LABEL];
    }
    if c.model == "" {
      missing := missing + [MODEL_LABEL];
    }
  }

  /** The check both `openai_chat_stream` and `judge_outputs` make before calling the model. */
  method ValidateConfig(c: ModelConfig) returns (r: Result<ModelConfig, HttpError>)
    ensures r.Ok? <==> c.baseUrl != "" && c.apiKey != "" && c.model != ""
    ensures r.Ok? ==> r.value == c
    ensures r.Err? ==> r.error.status == 400 && StartsWith(r.error.detail, MISSING_PREFIX)
                       && EndsWith(r.error.detail, MISSING_SUFFIX)
    ensures r.Err? ==> r.error.detail == MISSING_PREFIX + Join(MissingLabels(c), ", ") + MISSING_SUFFIX
    ensures r.Err? && c.model == "" ==> exists k :: Occurs(MODEL_LABEL, r.error.detail, k)
    ensures r.Err? && c.apiKey == "" ==> exists k :: Occurs(API_KEY_LABEL, r.error.detail, k)
    ensures r.Err? && c.baseUrl == "" ==> exists k :: Occurs(BASE_URL_LABEL, r.error.detail, k)
  {
    var missing := MissingConfig(c);
    if missing != [] {
      var listed := Join(missing, ", ");
      var detail := MISSING_PREFIX + listed + MISSING_SUFFIX;
      assert detail[..|MISSING_PREFIX|] == MISSING_PREFIX;
      assert detail[|detail| - |MISSING_SUFFIX|..] == MISSING_SUFFIX;
      if c.baseUrl == "" {
        ListedLabelOccurs(missing, MISSING_PREFIX, MISSING_SUFFIX, BASE_URL_LABEL);
      }
      if c.apiKey == "" {
        ListedLabelOccurs(missing, MISSING_PREFIX, MISSING_SUFFIX, API_KEY_LABEL);
      }
      if c.model == "" {
        ListedLabelOccurs(missing, MISSING_PREFIX, MISSING_SUFFIX, MODEL_LABEL);
      }
      r := Err(HttpError(400, detail));
    } else {
      r := Ok(c);
    }
  }

  /** A missing label appears in the message that lists them. */
  lemma ListedLabelOccurs(missing: seq<string>, prefix: string, suffix: string, entry: string)
    requires entry in missing
    ensures exists k :: Occurs(entry, prefix + Join(missing, ", ") + suffix, k)
  {
    var i :| 0 <= i < |missing| && missing[i] == entry;
    var k := JoinOccurs(missing, ", ", i);
    OccursWithin(entry, prefix, Join(missing, ", "), suffix, k);
  }

  // ---------------------------------------------------------------------------
  // chat messages and the judge's user prompt
  // ---------------------------------------------------------------------------

  datatype Role = System | User

  /** `{"role": ..., "content": ...}`. */
  datatype Message = Message(role: Role, content: string)

  /**
   * The `messages` list: the system prompt first, and only when it is given
   * and not blank after `strip()`; the user prompt always, and last.
   */
  method BuildMessages(systemPrompt: Option<string>, prompt: string) returns (messages: seq<Message>)
    ensures 1 <= |messages| <= 2
    ensures messages[|messages| - 1] == Message(User, prompt)
    ensures |messages| == 2 <==>
              systemPrompt.Some? && systemPrompt.value != "" && Trim(systemPrompt.value, PY_WHITESPACE) != ""
    ensures |messages| == 2 ==> messages[0] == Message(System, systemPrompt.value)
    ensures |messages| == 2 <==> systemPrompt.Some? && !Blank(systemPrompt.value, PY_WHITESPACE)
  {
    messages := [];
    if systemPrompt.Some? && systemPrompt.value != "" && Trim(systemPrompt.value, PY_WHITESPACE) != "" {
      messages := messages + [Message(System, systemPrompt.value)];
    }
    messages := messages + [Message(User, prompt)];
    if systemPrompt.Some? {
      TrimEmptyIffBlank(systemPrompt.value, PY_WHITESPACE);
    }
  }

  const JUDGE_CONTEXT_HEAD: string := "\n    CONTEXT:\n    "
  const JUDGE_CANDIDATE_A: string := "\n    \n    CANDIDATE A:\n    "
  const JUDGE_CANDIDATE_B: string := "\n    \n    CANDIDATE B:\n    "
  const JUDGE_USER_TAIL: string :=
    "\n    \n    Evaluate both candidates and respond with the JSON structure as specified.\n    "

  /** `user_prompt` of `judge_outputs`, with the indentation of the triple-quoted f-string kept. */
  function JudgeUserPrompt(context: string, candidateA: string, candidateB: string): string
  {
    JUDGE_CONTEXT_HEAD + context + JUDGE_CANDIDATE_A + candidateA + JUDGE_CANDIDATE_B + candidateB + JUDGE_USER_TAIL
  }

  /** The context and both candidates appear, in that order, at offsets fixed by the earlier parts. */
  lemma JudgeUserPromptHoldsInputs(context: string, candidateA: string, candidateB: string)
    ensures var p := JudgeUserPrompt(context, candidateA, candidateB);
            var ka := |JUDGE_CONTEXT_HEAD| + |context| + |JUDGE_CANDIDATE_A|;
            var kb := ka + |candidateA| + |JUDGE_CANDIDATE_B|;
            Occurs(context, p, |JUDGE_CONTEXT_HEAD|) && Occurs(candidateA, p, ka) && Occurs(candidateB, p, kb)
            && |p| == kb + |candidateB| + |JUDGE_USER_TAIL|
  {
    var p := JudgeUserPrompt(context, candidateA, candidateB);
    var h := JUDGE_CONTEXT_HEAD;
    var ka := |h| + |context| + |JUDGE_CANDIDATE_A|;
    var kb := ka + |candidateA| + |JUDGE_CANDIDATE_B|;
    assert p[|h|..|h| + |context|] == context;
    assert p[ka..ka + |candidateA|] == candidateA;
    assert p[kb..kb + |candidateB|] == candidateB;
  }

  /** Different inputs give different user prompts. */
  lemma JudgeUserPromptInjective(c1: string, a1: string, b1: string, c2: string, a2: string, b2: string)
    requires |c1| == |c2| && |a1| == |a2|
    requires JudgeUserPrompt(c1, a1, b1) == JudgeUserPrompt(c2, a2, b2)
    ensures c1 == c2 && a1 == a2 && b1 == b2
  {
    JudgeUserPromptHoldsInputs(c1, a1, b1);
    JudgeUserPromptHoldsInputs(c2, a2, b2);
  }

  // ---------------------------------------------------------------------------
  // token usage of the judge call
  // ---------------------------------------------------------------------------

  /** The SDK's `response.usage`. */
  datatype CompletionUsage = CompletionUsage(promptTokens: int, completionTokens: int, totalTokens: int)

  /** The `usage` dictionary of `JudgeResponse`: the SDK's counts, or zeros when it gave none. */
  function UsageOrZero(usage: Option<CompletionUsage>): (u: CompletionUsage)
    ensures usage.None? ==> u == CompletionUsage(0, 0, 0)
    ensures usage.Some? ==> u == usage.value
  {
    match usage
    case None => CompletionUsage(0, 0, 0)
    case Some(x) => CompletionUsage(x.promptTokens, x.completionTokens, x.totalTokens)
  }

  // ---------------------------------------------------------------------------
  // fetch_csv
  // ---------------------------------------------------------------------------

  const DEFAULT_FILE_NAME: string := "remote-data.csv"

  /** `request.url.split("/")[-1] or "remote-data.csv"`. */
  function FileName(url: string): (name: string)
    ensures name != ""
    ensures '/' !in name || name == DEFAULT_FILE_NAME
  {
    var pieces := Split(url, '/');
    if pieces[|pieces| - 1] == "" then DEFAULT_FILE_NAME else pieces[|pieces| - 1]
  }

  /** The file name is what follows the last `/`, unless nothing does. */
  lemma FileNameIsLastSegment(url: string)
    ensures url != "" && url[|url| - 1] != '/' ==>
              EndsWith(url, FileName(url)) && '/' !in FileName(url)
              && (|FileName(url)| < |url| ==> url[|url| - |FileName(url)| - 1] == '/')
    ensures url == "" || url[|url| - 1] == '/' ==> FileName(url) == DEFAULT_FILE_NAME
  {
    var pieces := Split(url, '/');
    var l := pieces[|pieces| - 1];
    SplitLast(url, '/');
    assert '/' !in l;
    if url != "" && url[|url| - 1] != '/' {
      if '/' in url {
        assert url[|url| - |l| - 1] == '/';
      }
      assert l != "";
    } else if url != "" {
      assert EndsWith(url, l);
      assert l == "" || url[|url| - 1] == l[|l| - 1];
    }
  }

  /** The response of the upstream GET: a status, its reason phrase and the body, or a transport error. */
  datatype Upstream = Response(status: int, reasonPhrase: string, text: string) | RequestError(message: string)

  /** `FetchCsvResponse`. */
  datatype FetchCsvResponse = FetchCsvResponse(csvText: string, fileName: string)

  /**
   * `fetch_csv(request)`, given the `SOCRATA_APP_TOKEN` setting and what
   * the GET would answer; `upstream` is not consulted when a check fails
   * first.
   */
  function FetchCsv(url: string, appToken: string, upstream: Upstream): (r: Result<FetchCsvResponse, HttpError>)
    ensures url == "" ==> r == Err(HttpError(400, "URL is required"))
    ensures url != "" && appToken == "" ==>
              r == Err(HttpError(500, "SOCRATA_APP_TOKEN not configured. Please set it in the environment."))
    ensures r.Ok? <==> url != "" && appToken != "" && upstream.Response? && upstream.status == 200
    ensures r.Ok? ==> r.value == FetchCsvResponse(upstream.text, FileName(url))
    ensures url != "" && appToken != "" && upstream.Response? && upstream.status != 200 ==>
              r == Err(HttpError(upstream.status, "Failed to fetch CSV: " + upstream.reasonPhrase))
    ensures url != "" && appToken != "" && upstream.RequestError? ==>
              r == Err(HttpError(500, "Failed to fetch CSV: " + upstream.message))
  {
    if url == "" then Err(HttpError(400, "URL is required"))
    else if appToken == "" then
      Err(HttpError(500, "SOCRATA_APP_TOKEN not configured. Please set it in the environment."))
    else
      match upstream
      case RequestError(m) => Err(HttpError(500, "Failed to fetch CSV: " + m))
      case Response(status, reason, text) =>
        if status != 200 then Err(HttpError(status, "Failed to fetch CSV: " + reason))
        else Ok(FetchCsvResponse(text, FileName(url)))
  }

  // ---------------------------------------------------------------------------
  // serve_spa
  // ---------------------------------------------------------------------------

  /** What the catch-all route answers: 404, the requested static file, or `index.html`. */
  datatype SpaAnswer = NotFound | StaticFile(path: string) | IndexHtml

  /** The paths the catch-all route leaves to the API. */
  predicate IsApiPath(fullPath: string)
  {
    StartsWith(fullPath, "api/") || fullPath == "health"
  }

  /**
   * `serve_spa(full_path)`, given which paths are files under the static
   * directory and whether `index.html` exists there.
   */
  function ServeSpa(fullPath: string, isFile: string -> bool, indexExists: bool): (a: SpaAnswer)
    ensures IsApiPath(fullPath) ==> a == NotFound
    ensures a.StaticFile? <==> !IsApiPath(fullPath) && isFile(fullPath)
    ensures a.StaticFile? ==> a.path == fullPath
    ensures !IsApiPath(fullPath) ==>
              (a.NotFound? <==> !isFile(fullPath) && !indexExists)
  {
    if IsApiPath(fullPath) then NotFound
    else if isFile(fullPath) then StaticFile(fullPath)
    else if indexExists then IndexHtml
    else NotFound
  }
}
