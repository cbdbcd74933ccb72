# Paperless-NGX MCP server: search reshaping, error envelope, client and configuration

This project models the search path of the Paperless-NGX MCP server, a bridge that
exposes the Paperless-NGX document backend to an AI agent as callable tools:

- `format_document_results` reshapes one page of the backend's paginated search
  response (`count`, `next`, `previous`, `results`) into a flat summary. It
  truncates each document's content to a 200-character preview, fills in absent
  fields, and derives `page_size` and the two pagination flags.
- `search_documents_tool` runs one search through a client and turns every
  exception into an error envelope that echoes the call's arguments.
- `PaperlessAPI` is the HTTP client. It builds the search request and maps each
  transport outcome to the decoded body or to an error message. It is open until
  it is closed, and leaving its `with` block closes it.
- `Config` reads the base URL and the API token from the environment and builds
  the authorization header. `get_config` creates the process-wide instance at most once.

Modules, one per source file plus two helpers:

- `Json`: decoded JSON values and `Result<T>`. A `Failure(msg)` stands for an
  exception whose `str(e)` is `msg`.
- `Text`: substring containment, and Python's decimal rendering of a status code
  together with its inverse.
- `Configuration`: `config.py`. The environment is a `map<string, string>`, and the
  module-level global is the class `ConfigHolder`.
- `Api`: `api.py`. The HTTP exchange is a function parameter `send: Request -> Outcome`.
  A `Request` records the base URL, path, headers, query parameters and timeout.
  An `Outcome` is a response (status, text, decoded body or decoder error), a
  connection failure, a timeout or another transport failure. `PaperlessApi` is a
  class with an `isOpen` flag.
- `Tools`: `tools.py`. Specification functions (`FormatDoc`, the in-order
  traversal `InOrder(FormatDoc, ·)`, `FormatPage`, `SearchToolResult`) sit beside the methods that run the source's
  steps. `FormatDocumentResults` runs the loop over `results`, and
  `SearchDocumentsTool` runs the `with` block.

The model follows Python's dynamic typing where the code does:

- a response or a result entry that is not a dict fails at `.get`;
- a `content` without a length (`None`, a number, a boolean) fails at `len`;
- a list or dict `content` of at most 200 entries passes through unchanged, and a
  longer one fails at the slice-and-concatenate step;
- an empty string or empty dict as `results` iterates nothing, while a non-empty one
  fails at the first `.get`.

Each such failure becomes the tool's error envelope, as the source's catch-all
`except Exception` does.

Two facts about the source shape the error paths:

- the source has no separate 404 case: a 404 gets the generic
  `"API request failed: <code> - <body>"` message (api.py:54-56);
- a missing token does not stop the process at start-up: `get_config` raises
  inside the tool's `try` (tools.py:67-68, api.py:14), so the error comes back as
  an envelope, and the next call tries again.

## Model

| member | source | states |
|---|---|---|
| `Configuration.LoadConfig` | src/paperless_ngx_mcp/config.py:16-24 | construction succeeds iff `PAPERLESS_API_TOKEN` is present and non-empty; the token is kept; `api_url` is `http://localhost:8000` when `PAPERLESS_API_URL` is unset and the variable's value otherwise; the failure message names `PAPERLESS_API_TOKEN` |
| `Configuration.AuthHeader` | src/paperless_ngx_mcp/config.py:26-29 | the header map has exactly the key `Authorization`, whose value is `"Token "` followed by the token, which can be read back from it |
| `Configuration.ConfigFor` | src/paperless_ngx_mcp/config.py:36-41 | with an instance stored, `get_config` returns it without consulting the environment; without one, it returns what loading the environment gives |
| `Configuration.CachedAfter` | src/paperless_ngx_mcp/config.py:38-40 | the global is kept once set; a failed construction leaves it `None`; whatever is stored is what the call returned |
| `Configuration.ConfigLoadedOnce` | src/paperless_ngx_mcp/config.py:36-41 | after one successful load, a later call with any environment returns the same configuration and leaves the global unchanged |
| `Configuration.ConfigHolder.constructor` | src/paperless_ngx_mcp/config.py:33 | the global starts out as `None` |
| `Configuration.ConfigHolder.GetConfig` | src/paperless_ngx_mcp/config.py:36-41 | returns `ConfigFor(old global, env)` and leaves the global as `CachedAfter` says: unchanged once set, still `None` after a failed construction |
| `Text.NatToString` | src/paperless_ngx_mcp/api.py:52 | the rendering of a status code is non-empty, all decimal digits, with no leading zero |
| `Text.ParseNatToString` | src/paperless_ngx_mcp/api.py:52 | reading the rendered digits back gives the status code again |
| `Api.SearchRequest` | src/paperless_ngx_mcp/api.py:13-19 | the request goes to `/api/documents/` on the configured base URL, with the authorization header, the 30 s timeout and exactly the params `query`, `page`, `page_size` equal to the arguments (lines 38-45) |
| `Api.Classify` | src/paperless_ngx_mcp/api.py:44-65 | success iff a 2xx response whose body decodes, and then the decoded body unchanged; a 401 message names `PAPERLESS_API_TOKEN` and contains the status code; any other non-2xx (404 included) is `"API request failed: <code> - <body>"`; a connection failure names the configured `api_url`; a timeout gives the fixed 30 s message; a body that does not decode, or any other transport error, propagates its own message |
| `Api.SearchOutcome` | src/paperless_ngx_mcp/api.py:21-65 | a closed client raises the closed-client error; an open one classifies the outcome of exactly the search request |
| `Api.PaperlessApi.constructor` | src/paperless_ngx_mcp/api.py:13-19 | the client keeps the configuration and its connection is open |
| `Api.PaperlessApi.SearchDocuments` | src/paperless_ngx_mcp/api.py:21-65 | returns `SearchOutcome` for the client's current state and changes nothing |
| `Api.PaperlessApi.Close` | src/paperless_ngx_mcp/api.py:67-69 | the connection is closed afterwards, whatever its state before |
| `Api.PaperlessApi.Enter` | src/paperless_ngx_mcp/api.py:71-72 | returns the client itself |
| `Api.PaperlessApi.Exit` | src/paperless_ngx_mcp/api.py:74-75 | closes the client whether or not an exception is leaving the block, and does not suppress it |
| `Api.Open` | src/paperless_ngx_mcp/api.py:13-19 | a new open client exactly when `get_config` succeeds, holding that configuration; otherwise the configuration error; the global is updated as `get_config` does |
| `Tools.TruncatePreview` | src/paperless_ngx_mcp/tools.py:28-30 | content of at most 200 characters is its own preview with no marker; longer content gives its first 200 characters followed by `"..."`, exactly 203 long; a preview is never longer than 203 |
| `Tools.Preview` | src/paperless_ngx_mcp/tools.py:27-30 | a string content is truncated as above; the step succeeds iff the content is a string or a list/dict of at most 200 entries, which then passes through unchanged |
| `Tools.FormatDoc` | src/paperless_ngx_mcp/tools.py:25-41 | an entry that is not a dict fails at `.get`; otherwise reshaping succeeds iff its preview succeeds; the result has exactly the eight document keys |
| `Tools.FormatDocFields` | src/paperless_ngx_mcp/tools.py:27-41 | `id`, `title`, `correspondent`, `document_type`, `created_date`, `original_file_name` are copied unchanged, or `null` when absent; `tags` defaults to `[]`; `content_preview` is the preview of `content`, and `""` when `content` is absent |
| `Tools.InOrder` | src/paperless_ngx_mcp/tools.py:24-42 | the loop that appends one reshaped entry per result yields as many entries as there are results |
| `Tools.InOrderElementwise` | src/paperless_ngx_mcp/tools.py:24-42 | the loop succeeds iff every entry can be reshaped; entry `i` of the output is entry `i` of `results` reshaped, so length and order are kept |
| `Tools.InOrderFirstFailure` | src/paperless_ngx_mcp/tools.py:24-42 | when the loop fails, its error is that of the first entry that cannot be reshaped, every earlier entry having succeeded |
| `Tools.InOrderPrefixFailure` | src/paperless_ngx_mcp/tools.py:25-42 | an exception raised while reshaping an entry ends the whole loop with that exception |
| `Tools.ResultsOf` | src/paperless_ngx_mcp/tools.py:19-25 | a list of results is iterated as it is; anything else iterates nothing or fails |
| `Tools.FormatPage` | src/paperless_ngx_mcp/tools.py:9-52 | a non-dict response fails at `.get`; on success the object has exactly the keys `total_count`, `page_size`, `has_next_page`, `has_previous_page`, `documents`; `page_size` is the number of entries in `results`; `has_next_page` / `has_previous_page` are true iff `next` / `previous` is present and not `null`; `total_count` is `count`, or 0 when absent; entry `i` of `documents` is entry `i` of `results` reshaped; a missing `results` gives `page_size` 0 and no documents |
| `Tools.FormatDocumentResults` | src/paperless_ngx_mcp/tools.py:9-52 | the loop that appends one reshaped entry per result computes exactly `FormatPage` of the response |
| `Tools.ErrorEnvelope` | src/paperless_ngx_mcp/tools.py:73-80 | the envelope has exactly the keys `error`, `query`, `page`, `page_size`; the last three equal the call's arguments |
| `Tools.SearchToolResult` | src/paperless_ngx_mcp/tools.py:55-80 | the tool always returns an object; it is an error envelope echoing the arguments iff configuration, request or reshaping failed, and the summary page otherwise; the envelope carries the configuration error, the request error, or the reshaping error, whichever came first |
| `Tools.ToolReportsBackendFailures` | src/paperless_ngx_mcp/tools.py:67-80 | a 401, an unreachable backend and a timeout each end in an envelope echoing the arguments, which names the token variable, the configured URL, or the fixed timeout message respectively |
| `Tools.SearchDocumentsTool` | src/paperless_ngx_mcp/tools.py:67-80 | the `with` block returns `SearchToolResult` for the configuration `get_config` gives; the client it opened, if any, is closed on return on every path; the global configuration is updated as `get_config` does |

## Left out

- HTTP I/O through the HTTP library (client construction, sending, the status
  check, decoding the body) is the parameter `send`. Its outcome is data. A failure
  while constructing the client itself (an invalid base URL, an unencodable
  header) is not modelled.
- Loading the `.env` file and reading the process environment at import time are
  not modelled. The environment is the input map `env`.
- The `json.dumps(..., indent=2)` serialization is not modelled: the model returns
  the structured object. Key order inside objects is not modelled either, since
  objects are maps.
- JSON floating-point numbers are not modelled. Numbers are integers, and status
  codes are non-negative integers.
- Content is a `seq<char>`, and the 200 rule is stated on sequence length. Python's
  code-point semantics are not modelled beyond that.
- Tools.Preview: the message for a dict `content` longer than 200 entries is the
  `TypeError` text of Python before 3.12. From 3.12 on, slicing a dict raises a
  `KeyError` with another text. The other built-in exception texts follow CPython's.
- Configuration.ConfigHolder: "the same instance" is modelled as the same stored
  value with the global left unchanged, because `Config` is a value here and has
  no object identity.
- Default arguments are not modelled: `search_documents_tool` (tools.py:55) and
  `PaperlessAPI.search_documents` (api.py:21-23) default to `query=""`, `page=1`,
  `page_size=25`, while `SearchToolResult`, `SearchDocumentsTool` and
  `PaperlessApi.SearchDocuments` take all three arguments. No behaviour is lost,
  because every call site passes all three (server.py:41, tools.py:69-71).
- Exceptions outside `Exception` (such as `KeyboardInterrupt`) are not modelled.
  They would escape the tool's catch-all.
- Concurrent calls racing on the global configuration are not modelled.
- `server.py` (tool registration, transport selection) and `main.py` (command-line
  entry) are not part of this model. The other tools that `server.py` imports
  (`get_document_tool`, `get_similar_documents_tool`, `list_tags_tool`,
  `autocomplete_search_tool`) are not defined in `tools.py` and are not part of
  this model either.
