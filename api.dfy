/** The HTTP client for the document backend: the request a search sends, how each
    transport outcome becomes a body or an error message, and the client's
    open/closed lifecycle. The HTTP exchange itself is a parameter. */
module Api {
  import opened Json
  import opened Text
  import opened Configuration

  const TimeoutSeconds := 30
  const DocumentsPath := "/api/documents/"
  const SearchParamKeys: set<string> := {"query", "page", "page_size"}

  const AuthFailedLead := "Authentication failed. Check your "
  const AuthFailedPrefix := AuthFailedLead + TokenVariable + ". Status: "
  const TimeoutMessage := "Request to Paperless-NGX timed out after 30s."
  /** What the HTTP library raises when a request is sent through a closed client. */
  const ClosedClientMessage := "Cannot send a request, as the client has been closed."

  /** One GET request as the HTTP library would send it. */
  datatype Request = Request(
    baseUrl: string,
    path: string,
    headers: map<string, string>,
    params: map<string, Json>,
    timeoutSeconds: int)

  /** What sending a request can end in. `parsed` is what decoding the body as JSON
      gives: the value, or the decoder's error message. */
  datatype Outcome =
    | Response(status: nat, text: string, parsed: Result<Json>)
    | ConnectFailure
    | TimeoutFailure
    | OtherTransportFailure(message: string)

  /** The statuses for which the library's status check does not raise. */
  predicate IsSuccessStatus(status: nat)
  {
    200 <= status < 300
  }

  /** The request `search_documents` sends through a client built from `config`. */
  function SearchRequest(config: Config, query: string, page: int, pageSize: int): (r: Request)
    ensures r.path == DocumentsPath && r.baseUrl == config.apiUrl
    ensures r.headers == AuthHeader(config) && r.timeoutSeconds == TimeoutSeconds
    ensures r.params.Keys == SearchParamKeys
    ensures r.params["query"] == JStr(query)
    ensures r.params["page"] == JNum(page) && r.params["page_size"] == JNum(pageSize)
  {
    Request(config.apiUrl, DocumentsPath, AuthHeader(config),
      map["query" := JStr(query), "page" := JNum(page), "page_size" := JNum(pageSize)],
      TimeoutSeconds)
  }

  function AuthFailedMessage(status: nat): string
  {
    AuthFailedPrefix + NatToString(status)
  }

  function StatusFailedMessage(status: nat, text: string): string
  {
    "API request failed: " + NatToString(status) + " - " + text
  }

  function ConnectFailedMessage(apiUrl: string): string
  {
    "Cannot connect to Paperless-NGX at " + apiUrl + ". Make sure the server is running."
  }

  /** The body of `search_documents` after the request: a 2xx response gives its
      decoded body; every other outcome gives the message of the exception that
      leaves the method. */
  function Classify(outcome: Outcome, apiUrl: string): (r: Result<Json>)
    ensures r.Success? <==>
      outcome.Response? && IsSuccessStatus(outcome.status) && outcome.parsed.Success?
    ensures r.Success? ==> r.value == outcome.parsed.value
    ensures outcome.Response? && IsSuccessStatus(outcome.status) && outcome.parsed.Failure? ==>
      r.error == outcome.parsed.error
    ensures outcome.Response? && outcome.status == 401 ==>
      IsInfix(TokenVariable, r.error) && IsInfix(NatToString(outcome.status), r.error)
    ensures outcome.Response? && !IsSuccessStatus(outcome.status) && outcome.status != 401 ==>
      r.error == "API request failed: " + NatToString(outcome.status) + " - " + outcome.text
    ensures outcome.ConnectFailure? ==> IsInfix(apiUrl, r.error)
    ensures outcome.TimeoutFailure? ==> r.error == TimeoutMessage
    ensures outcome.OtherTransportFailure? ==> r.error == outcome.message
  {
    match outcome
    case Response(status, text, parsed) =>
      if IsSuccessStatus(status) then parsed
      else if status == 401 then
        InfixOfConcat(AuthFailedLead, TokenVariable, ". Status: " + NatToString(status));
        assert AuthFailedMessage(status)
          == AuthFailedLead + TokenVariable + (". Status: " + NatToString(status));
        InfixOfConcat(AuthFailedPrefix, NatToString(status), "");
        assert AuthFailedMessage(status) == AuthFailedPrefix + NatToString(status) + "";
        Failure(AuthFailedMessage(status))
      else
        Failure(StatusFailedMessage(status, text))
    case ConnectFailure =>
      InfixOfConcat("Cannot connect to Paperless-NGX at ", apiUrl, ". Make sure the server is running.");
      Failure(ConnectFailedMessage(apiUrl))
    case TimeoutFailure =>
      Failure(TimeoutMessage)
    case OtherTransportFailure(message) =>
      Failure(message)
  }

  /** What `search_documents` returns or raises, for a client whose connection is
      open or closed, when `send` is the HTTP exchange. */
  function SearchOutcome(isOpen: bool, config: Config, send: Request -> Outcome,
                         query: string, page: int, pageSize: int): (r: Result<Json>)
    ensures !isOpen ==> r == Failure(ClosedClientMessage)
    ensures isOpen ==> r == Classify(send(SearchRequest(config, query, page, pageSize)), config.apiUrl)
  {
    if isOpen then Classify(send(SearchRequest(config, query, page, pageSize)), config.apiUrl)
    else Failure(ClosedClientMessage)
  }

  /** `PaperlessAPI`: a configuration and one HTTP connection, open until closed. */
  class PaperlessApi {
    const config: Config
    var isOpen: bool

    /** The connection is opened with the configured base URL, the authorization
        header and the fixed timeout (see `SearchRequest`). */
    constructor (config: Config)
      ensures this.config == config && isOpen
    {
      this.config := config;
      isOpen := true;
    }

    /** `search_documents(query, page, page_size)`. */
    method SearchDocuments(query: string, page: int, pageSize: int, send: Request -> Outcome)
      returns (r: Result<Json>)
      ensures r == SearchOutcome(isOpen, config, send, query, page, pageSize)
    {
      if !isOpen {
        return Failure(ClosedClientMessage);
      }
      var outcome := send(SearchRequest(config, query, page, pageSize));
      r := Classify(outcome, config.apiUrl);
    }

    /** `close()`; closing a closed client is harmless. */
    method Close()
      modifies this
      ensures !isOpen
    {
      isOpen := false;
    }

    /** `__enter__`: the client itself. */
    method Enter() returns (api: PaperlessApi)
      ensures api == this
    {
      api := this;
    }

    /** `__exit__`: closes the client whether or not `pending` (the exception
        leaving the block) is present, and never suppresses it. */
    method Exit(pending: Option<string>) returns (suppress: bool)
      modifies this
      ensures !isOpen && !suppress
    {
      Close();
      suppress := false;
    }
  }

  /** `PaperlessAPI()`: fetch the global configuration, then open a client with it.
      A configuration error leaves the constructor before any client exists. */
  method Open(holder: ConfigHolder, env: Env) returns (r: Result<PaperlessApi>)
    modifies holder
    ensures holder.config == CachedAfter(old(holder.config), env)
    ensures r.Success? <==> ConfigFor(old(holder.config), env).Success?
    ensures r.Success? ==> fresh(r.value) && r.value.isOpen
    ensures r.Success? ==> r.value.config == ConfigFor(old(holder.config), env).value
    ensures r.Failure? ==> r.error == ConfigFor(old(holder.config), env).error
  {
    var config := holder.GetConfig(env);
    if config.Failure? {
      return Failure(config.error);
    }
    var api := new PaperlessApi(config.value);
    r := Success(api);
  }
}
