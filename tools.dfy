/** The tool layer: reshaping a paginated search response into the flat summary
    the agent reads, and the search tool that turns every failure into an error
    envelope. The result objects are modelled as JSON values; their serialized
    text is not. */
module Tools {
  import opened Json
  import opened Configuration
  import opened Api
  import Text

  const PreviewLength := 200
  const Ellipsis := "..."

  const CopiedKeys: set<string> :=
    {"id", "title", "correspondent", "document_type", "created_date", "original_file_name"}
  const DocumentKeys: set<string> := CopiedKeys + {"content_preview", "tags"}
  const PageKeys: set<string> :=
    {"total_count", "page_size", "has_next_page", "has_previous_page", "documents"}
  const EnvelopeKeys: set<string> := {"error", "query", "page", "page_size"}

  /** The preview of a text content: the content itself when it is short enough,
      otherwise its first 200 characters followed by the ellipsis marker. */
  function TruncatePreview(content: string): (p: string)
    ensures |content| <= PreviewLength ==> p == content
    ensures |content| > PreviewLength ==>
      |p| == PreviewLength + |Ellipsis| &&
      p[..PreviewLength] == content[..PreviewLength] && p[PreviewLength..] == Ellipsis
    ensures |p| <= PreviewLength + |Ellipsis|
  {
    if |content| > PreviewLength then content[..PreviewLength] + Ellipsis else content
  }

  /** `len(x)` on a decoded value, or `None` when the value has no length. */
  function Len(j: Json): Option<nat>
  {
    match j
    case JStr(s) => Some(|s|)
    case JArr(items) => Some(|items|)
    case JObj(fields) => Some(|fields|)
    case _ => None
  }

  /** The preview computed from whatever `content` holds. A string is truncated; a
      list or dict short enough passes through unchanged, a longer one cannot be
      sliced and concatenated; a value without a length raises. */
  function Preview(content: Json): (r: Result<Json>)
    ensures content.JStr? ==> r == Success(JStr(TruncatePreview(content.s)))
    ensures r.Success? <==> content.JStr? || (Len(content).Some? && Len(content).value <= PreviewLength)
    ensures r.Success? && !content.JStr? ==> r.value == content
  {
    match content
    case JStr(s) => Success(JStr(TruncatePreview(s)))
    case JArr(items) =>
      if |items| > PreviewLength then Failure("can only concatenate list (not \"str\") to list")
      else Success(content)
    case JObj(fields) =>
      if |fields| > PreviewLength then Failure("unhashable type: 'slice'")
      else Success(content)
    case _ => Failure("object of type '" + TypeName(content) + "' has no len()")
  }

  /** One entry of `documents`, built from one entry of `results`. */
  function FormatDoc(doc: Json): (r: Result<Json>)
    ensures !doc.JObj? ==> r == Failure(NoGetMessage(doc))
    ensures doc.JObj? ==>
      (r.Success? <==> Preview(Get(doc.fields, "content", JStr(""))).Success?)
    ensures r.Success? ==> r.value.JObj? && r.value.fields.Keys == DocumentKeys
  {
    match doc
    case JObj(f) =>
      (match Preview(Get(f, "content", JStr("")))
       case Failure(e) => Failure(e)
       case Success(preview) =>
         Success(JObj(map[
           "id" := Get(f, "id", JNull),
           "title" := Get(f, "title", JNull),
           "content_preview" := preview,
           "correspondent" := Get(f, "correspondent", JNull),
           "document_type" := Get(f, "document_type", JNull),
           "tags" := Get(f, "tags", JArr([])),
           "created_date" := Get(f, "created_date", JNull),
           "original_file_name" := Get(f, "original_file_name", JNull)])))
    case _ => Failure(NoGetMessage(doc))
  }

  /** What a reshaped entry holds: the copied fields unchanged or `null` when absent,
      `tags` defaulting to `[]`, and the preview of `content`, `""` when absent. */
  lemma FormatDocFields(doc: Json)
    requires FormatDoc(doc).Success?
    ensures doc.JObj?
    ensures var out := FormatDoc(doc).value.fields;
      (forall k | k in CopiedKeys :: out[k] == (if k in doc.fields then doc.fields[k] else JNull)) &&
      out["tags"] == (if "tags" in doc.fields then doc.fields["tags"] else JArr([])) &&
      out["content_preview"] == Preview(Get(doc.fields, "content", JStr(""))).value &&
      ("content" !in doc.fields ==> out["content_preview"] == JStr(""))
  {
  }

  /** `step` applied to each item in order, as a `for` loop whose body may raise:
      the first item whose step fails stops the loop with that failure. */
  function InOrder(step: Json -> Result<Json>, items: seq<Json>): (r: Result<seq<Json>>)
    ensures r.Success? ==> |r.value| == |items|
  {
    if items == [] then Success([])
    else
      match InOrder(step, items[..|items| - 1])
      case Failure(e) => Failure(e)
      case Success(init) =>
        match step(items[|items| - 1])
        case Failure(e) => Failure(e)
        case Success(last) => Success(init + [last])
  }

  /** Item `i` is the first whose step fails. */
  predicate FirstFailure(step: Json -> Result<Json>, items: seq<Json>, i: int)
  {
    0 <= i < |items| && step(items[i]).Failure? &&
    forall j | 0 <= j < i :: step(items[j]).Success?
  }

  /** The loop works item by item: it succeeds exactly when every step succeeds,
      and then keeps length and order. */
  lemma {:induction false} InOrderElementwise(step: Json -> Result<Json>, items: seq<Json>)
    ensures InOrder(step, items).Success? <==>
      forall i | 0 <= i < |items| :: step(items[i]).Success?
    ensures InOrder(step, items).Success? ==>
      forall i | 0 <= i < |items| :: InOrder(step, items).value[i] == step(items[i]).value
  {
    if items != [] {
      var init := items[..|items| - 1];
      InOrderElementwise(step, init);
      assert forall i | 0 <= i < |init| :: init[i] == items[i];
    }
  }

  /** When the loop fails, its error is that of the first item whose step fails. */
  lemma {:induction false} InOrderFirstFailure(step: Json -> Result<Json>, items: seq<Json>)
    requires InOrder(step, items).Failure?
    ensures exists i :: FirstFailure(step, items, i) && InOrder(step, items).error == step(items[i]).error
  {
    var n := |items| - 1;
    var init := items[..n];
    assert forall i | 0 <= i < n :: init[i] == items[i];
    if InOrder(step, init).Failure? {
      InOrderFirstFailure(step, init);
      var i :| FirstFailure(step, init, i) && InOrder(step, init).error == step(init[i]).error;
      assert FirstFailure(step, items, i);
    } else {
      InOrderElementwise(step, init);
      assert FirstFailure(step, items, n);
    }
  }

  /** A failure in a prefix is the failure of the whole loop. */
  lemma {:induction false} InOrderPrefixFailure(step: Json -> Result<Json>, items: seq<Json>, k: nat)
    requires k <= |items| && InOrder(step, items[..k]).Failure?
    ensures InOrder(step, items) == InOrder(step, items[..k])
    decreases |items| - k
  {
    if k < |items| {
      assert items[..k + 1][..k] == items[..k];
      InOrderPrefixFailure(step, items, k + 1);
    } else {
      assert items[..k] == items;
    }
  }

  /** What `for doc in results` iterates over: a list's items; the characters of a
      string or the keys of a dict, which are strings and so fail at `doc.get`
      unless there are none; nothing else is iterable. */
  function ResultsOf(results: Json): (r: Result<seq<Json>>)
    ensures results.JArr? ==> r == Success(results.items)
    ensures r.Success? && !results.JArr? ==> r.value == []
  {
    match results
    case JArr(items) => Success(items)
    case JStr(s) => if s == "" then Success([]) else Failure(NoGetMessage(JStr(s)))
    case JObj(fields) => if fields == map[] then Success([]) else Failure(NoGetMessage(JStr("")))
    case _ => Failure("'" + TypeName(results) + "' object is not iterable")
  }

  /** The `results` entry of a response object, `[]` when absent. */
  function PageItems(f: map<string, Json>): Result<seq<Json>>
  {
    ResultsOf(Get(f, "results", JArr([])))
  }

  /** `x is not None` for `d.get(key)`. */
  predicate IsPresent(f: map<string, Json>, key: string)
  {
    key in f && f[key] != JNull
  }

  function PageObject(f: map<string, Json>, pageSize: nat, docs: seq<Json>): Json
  {
    JObj(map[
      "total_count" := Get(f, "count", JNum(0)),
      "page_size" := JNum(pageSize),
      "has_next_page" := JBool(IsPresent(f, "next")),
      "has_previous_page" := JBool(IsPresent(f, "previous")),
      "documents" := JArr(docs)])
  }

  /** `format_document_results` as a value: the summary object, or the error of the
      first step that raises. */
  function FormatPage(response: Json): (r: Result<Json>)
    ensures !response.JObj? ==> r == Failure(NoGetMessage(response))
    ensures r.Success? <==> (response.JObj? && PageItems(response.fields).Success? &&
      InOrder(FormatDoc, PageItems(response.fields).value).Success?)
    ensures r.Success? ==> r.value.JObj? && r.value.fields.Keys == PageKeys
    ensures r.Success? ==>
      var f, items := response.fields, PageItems(response.fields).value;
      r.value.fields["page_size"] == JNum(|items|) &&
      r.value.fields["has_next_page"] == JBool("next" in f && f["next"] != JNull) &&
      r.value.fields["has_previous_page"] == JBool("previous" in f && f["previous"] != JNull) &&
      r.value.fields["total_count"] == (if "count" in f then f["count"] else JNum(0)) &&
      r.value.fields["documents"].JArr? &&
      |r.value.fields["documents"].items| == |items| &&
      forall i | 0 <= i < |items| ::
        FormatDoc(items[i]).Success? &&
        r.value.fields["documents"].items[i] == FormatDoc(items[i]).value
    ensures r.Success? && "results" !in response.fields ==>
      r.value.fields["page_size"] == JNum(0) && r.value.fields["documents"] == JArr([])
  {
    match response
    case JObj(f) =>
      (match PageItems(f)
       case Failure(e) => Failure(e)
       case Success(items) =>
         InOrderElementwise(FormatDoc, items);
         match InOrder(FormatDoc, items)
         case Failure(e) => Failure(e)
         case Success(docs) => Success(PageObject(f, |items|, docs)))
    case _ => Failure(NoGetMessage(response))
  }

  /** `format_document_results(api_response)`, building `documents` one entry at a time. */
  method FormatDocumentResults(apiResponse: Json) returns (r: Result<Json>)
    ensures r == FormatPage(apiResponse)
  {
    if !apiResponse.JObj? {
      return Failure(NoGetMessage(apiResponse));
    }
    var f := apiResponse.fields;
    var results := PageItems(f);
    if results.Failure? {
      return Failure(results.error);
    }
    var items := results.value;
    var docs: seq<Json> := [];
    var i := 0;
    while i < |items|
      invariant 0 <= i <= |items|
      invariant InOrder(FormatDoc, items[..i]) == Success(docs)
    {
      var doc := FormatDoc(items[i]);
      assert items[..i + 1][..i] == items[..i];
      if doc.Failure? {
        InOrderPrefixFailure(FormatDoc, items, i + 1);
        return Failure(doc.error);
      }
      docs := docs + [doc.value];
      i := i + 1;
    }
    assert items[..i] == items;
    r := Success(PageObject(f, |items|, docs));
  }

  /** The error result of the search tool: the message and the call's own arguments. */
  function ErrorEnvelope(message: string, query: string, page: int, pageSize: int): (e: Json)
    ensures e.JObj? && e.fields.Keys == EnvelopeKeys
    ensures e.fields["error"] == JStr(message)
    ensures e.fields["query"] == JStr(query)
    ensures e.fields["page"] == JNum(page) && e.fields["page_size"] == JNum(pageSize)
  {
    JObj(map[
      "error" := JStr(message),
      "query" := JStr(query),
      "page" := JNum(page),
      "page_size" := JNum(pageSize)])
  }

  predicate IsErrorEnvelope(out: Json, query: string, page: int, pageSize: int)
  {
    out.JObj? && out.fields.Keys == EnvelopeKeys && out.fields["error"].JStr? &&
    out.fields["query"] == JStr(query) &&
    out.fields["page"] == JNum(page) && out.fields["page_size"] == JNum(pageSize)
  }

  /** The steps inside the tool's `try`: configuration, request, reshaping. */
  function SearchSteps(config: Result<Config>, send: Request -> Outcome,
                       query: string, page: int, pageSize: int): Result<Json>
  {
    match config
    case Failure(e) => Failure(e)
    case Success(c) =>
      match SearchOutcome(true, c, send, query, page, pageSize)
      case Failure(e) => Failure(e)
      case Success(body) => FormatPage(body)
  }

  /** `search_documents_tool(query, page, page_size)` as a value, when `config` is what
      fetching the configuration gives: always an object, either the summary page
      or the error envelope carrying the first failure's message. */
  function SearchToolResult(config: Result<Config>, send: Request -> Outcome,
                            query: string, page: int, pageSize: int): (out: Json)
    ensures out.JObj?
    ensures IsErrorEnvelope(out, query, page, pageSize) <==>
      SearchSteps(config, send, query, page, pageSize).Failure?
    ensures out.fields.Keys == PageKeys <==>
      SearchSteps(config, send, query, page, pageSize).Success?
    ensures config.Failure? ==> out.fields["error"] == JStr(config.error)
    ensures config.Success? ==>
      var fetched := Classify(send(SearchRequest(config.value, query, page, pageSize)), config.value.apiUrl);
      (fetched.Failure? ==> out.fields["error"] == JStr(fetched.error)) &&
      (fetched.Success? && FormatPage(fetched.value).Success? ==>
        out == FormatPage(fetched.value).value) &&
      (fetched.Success? && FormatPage(fetched.value).Failure? ==>
        out.fields["error"] == JStr(FormatPage(fetched.value).error))
  {
    match SearchSteps(config, send, query, page, pageSize)
    case Success(summary) => summary
    case Failure(e) => ErrorEnvelope(e, query, page, pageSize)
  }

  /** A 401 from the backend, an unreachable backend and a timed-out request each end
      in an envelope that echoes the arguments and names the cause. */
  lemma ToolReportsBackendFailures(config: Config, send: Request -> Outcome,
                                   query: string, page: int, pageSize: int)
    ensures var outcome := send(SearchRequest(config, query, page, pageSize));
      var out := SearchToolResult(Success(config), send, query, page, pageSize);
      (outcome.Response? && outcome.status == 401 ==>
        IsErrorEnvelope(out, query, page, pageSize) &&
        Text.IsInfix(TokenVariable, out.fields["error"].s)) &&
      (outcome.ConnectFailure? ==>
        IsErrorEnvelope(out, query, page, pageSize) &&
        Text.IsInfix(config.apiUrl, out.fields["error"].s)) &&
      (outcome.TimeoutFailure? ==>
        out == ErrorEnvelope(TimeoutMessage, query, page, pageSize))
  {
  }

  /** `search_documents_tool`: open a client with the global configuration, search,
      reshape, close the client on the way out, and turn any exception into the
      error envelope. `client` is the client the call opened, if any. */
  method SearchDocumentsTool(holder: ConfigHolder, env: Env, send: Request -> Outcome,
                             query: string, page: int, pageSize: int)
    returns (out: Json, ghost client: PaperlessApi?)
    modifies holder
    ensures out == SearchToolResult(ConfigFor(old(holder.config), env), send, query, page, pageSize)
    ensures holder.config == CachedAfter(old(holder.config), env)
    ensures client != null <==> ConfigFor(old(holder.config), env).Success?
    ensures client != null ==> fresh(client) && !client.isOpen
  {
    var created := Open(holder, env);
    if created.Failure? {
      return ErrorEnvelope(created.error, query, page, pageSize), null;
    }
    var api := created.value;
    client := api;
    var inner := api.Enter();
    var response := inner.SearchDocuments(query, page, pageSize, send);
    var formatted: Result<Json>;
    if response.Success? {
      formatted := FormatDocumentResults(response.value);
    } else {
      formatted := Failure(response.error);
    }
    var pending := if formatted.Failure? then Some(formatted.error) else None;
    var _ := inner.Exit(pending);
    out := match formatted
      case Success(summary) => summary
      case Failure(e) => ErrorEnvelope(e, query, page, pageSize);
  }
}
