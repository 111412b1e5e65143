/** The server's own request handling: its two argument guards and the
    CallTool handler, which checks the tool name and the arguments, posts
    once (without the retry executor) and reports the outcome. */
module Server {
  import opened Wrappers
  import opened JsonValues
  import opened ArgShapes
  import opened ErrorHandling
  import opened ToolEnvelope
  import ScrapeTool
  import TypeGuards

  /** The members the server's scrape guard checks beyond those of the shared guard. */
  const ScrapeExtras: seq<Field> := [Field("actions", StringArrayKind, false), Field("blockAds", BooleanKind, false)]

  /** The server's `isScrapeUrlArgs`, one conjunction over possibly absent
      arguments: the shared guard's checks, then `actions` as an array of
      strings and `blockAds` as a boolean, each only when present. */
  function IsScrapeUrlArgs(args: Option<Json>): (ok: bool)
    ensures ok <==> args.Some? && ScrapeTool.Validate(args.value) && Conforms(args.value, ObjectOf(ScrapeExtras))
  {
    var url := Member(args, "url");
    var jsonOptions := Member(args, "jsonOptions");
    var formats := Member(args, "formats");
    var actions := Member(args, "actions");
    var blockAds := Member(args, "blockAds");
    assert args.Some? && IsObject(args.value) && !(actions == None || (IsArray(actions) && EveryString(actions.value.items))) ==>
      !MemberConforms(args.value, ScrapeExtras[0]);
    assert args.Some? && IsObject(args.value) && !(blockAds == None || TypeOf(blockAds) == BooleanType) ==>
      !MemberConforms(args.value, ScrapeExtras[1]);
    && TypeOf(args) == ObjectType
    && args != Some(Null)
    && TypeOf(url) == StringType
    && (jsonOptions == None ||
        (TypeOf(jsonOptions) == ObjectType && jsonOptions != Some(Null) &&
         TypeOf(Member(jsonOptions, "prompt")) == StringType))
    && (formats == None || (IsArray(formats) && EveryString(formats.value.items)))
    && (actions == None || (IsArray(actions) && EveryString(actions.value.items)))
    && (blockAds == None || TypeOf(blockAds) == BooleanType)
  }

  /** In shape terms: the server's scrape guard checks the shared guard's
      members and the two extra ones. */
  lemma ScrapeGuardShape(args: Json)
    ensures IsScrapeUrlArgs(Some(args)) <==> Conforms(args, ObjectOf(ScrapeTool.CheckedFields + ScrapeExtras))
  {
    ConformsAppend(args, ScrapeTool.CheckedFields, ScrapeExtras);
  }

  /** The server's `isSearchContentArgs`, one conjunction over possibly absent arguments. */
  function IsSearchContentArgs(args: Option<Json>): (ok: bool)
    ensures ok <==> args.Some? && TypeGuards.IsSearchContentArgs(args.value)
  {
    var query := Member(args, "query");
    var scrapeOptions := Member(args, "scrapeOptions");
    var limit := Member(args, "limit");
    && TypeOf(args) == ObjectType
    && args != Some(Null)
    && TypeOf(query) == StringType
    && (scrapeOptions == None ||
        (TypeOf(scrapeOptions) == ObjectType && scrapeOptions != Some(Null) &&
         (Member(scrapeOptions, "formats") == None ||
          (IsArray(Member(scrapeOptions, "formats")) &&
           EveryString(Member(scrapeOptions, "formats").value.items)))))
    && (limit == None || TypeOf(limit) == NumberType)
  }

  /** The server's scrape guard is at least as strict as the shared one ... */
  lemma ScrapeGuardStronger(args: Json)
    requires IsScrapeUrlArgs(Some(args))
    ensures TypeGuards.IsScrapeUrlArgs(args)
  {
  }

  /** ... and strictly stricter: a non-string action is rejected only by the server's guard. */
  lemma ScrapeGuardStrictlyStronger()
    ensures var args := Obj(map["url" := Str("https://x"), "actions" := Arr([Num(1)])]);
      TypeGuards.IsScrapeUrlArgs(args) && !IsScrapeUrlArgs(Some(args))
  {
    var args := Obj(map["url" := Str("https://x"), "actions" := Arr([Num(1)])]);
    assert Get(args, "url") == Some(Str("https://x"));
    assert Get(args, "actions") == Some(Arr([Num(1)]));
    assert Get(args, "jsonOptions") == None && Get(args, "formats") == None;
    assert !EveryString([Num(1)]) by {
      assert Num(1) in [Num(1)];
    }
  }

  /** What a CallTool request ends in: a tool result, a thrown MCP error, a
      rethrown non-HTTP failure, or the `TypeError` of reading `message`
      from a null response body. */
  datatype Outcome =
    | Responded(response: ToolResponse)
    | Rejected(error: McpError)
    | Rethrown(failure: Failure)
    | TypeErrorThrown

  /** The request posted, if any, and the outcome. */
  datatype Call = Call(posted: Option<Request>, outcome: Outcome)

  /** `error.response?.data.message ?? error.message`; `None` when the body is
      `null`, whose `message` cannot be read. Only `null` and `undefined` fall
      through `??`, so an empty body message is kept. */
  function FirecrawlDetail(error: Failure): (detail: Option<string>)
    requires error.AxiosError?
    ensures detail.None? <==> error.response.Some? && error.response.value.data == Null
    ensures error.response.None? ==> detail == Some(error.message)
    ensures error.response.Some? && error.response.value.data != Null ==>
      var message := Get(error.response.value.data, "message");
      detail == if message == None || message == Some(Null) then Some(error.message) else Some(Display(message.value))
  {
    if error.response.None? then Some(error.message)
    else
      var data := error.response.value.data;
      if data == Null then None
      else
        var message := Get(data, "message");
        if message == None || message == Some(Null) then Some(error.message)
        else Some(Display(message.value))
  }

  /** One POST of `args` to `path`, answered by `server`. */
  function Answer(path: string, args: Json, server: Request -> Attempt<Json>): (call: Call)
    ensures call.posted == Some(Post(path, args))
    ensures server(Post(path, args)).Succeeded? <==> call.outcome.Responded?
    ensures call.outcome.Responded? ==> call.outcome.response == Envelope(server(Post(path, args)).value)
    ensures call.outcome.Rejected? ==> call.outcome.error.code == InternalError
    ensures var outcome := server(Post(path, args));
      outcome.Failed? && outcome.failure.AxiosError? ==>
        && (FirecrawlDetail(outcome.failure).Some? ==>
              call.outcome == Rejected(McpError(InternalError, "Firecrawl API error: " + FirecrawlDetail(outcome.failure).value)))
        && (FirecrawlDetail(outcome.failure).None? ==> call.outcome == TypeErrorThrown)
    ensures var outcome := server(Post(path, args));
      outcome.Failed? && !outcome.failure.AxiosError? ==> call.outcome == Rethrown(outcome.failure)
  {
    var request := Post(path, args);
    match server(request)
    case Succeeded(data) => Call(Some(request), Responded(Envelope(data)))
    case Failed(error) =>
      if !error.AxiosError? then Call(Some(request), Rethrown(error))
      else
        match FirecrawlDetail(error)
        case None => Call(Some(request), TypeErrorThrown)
        case Some(detail) => Call(Some(request), Rejected(McpError(InternalError, "Firecrawl API error: " + detail)))
  }

  /** The CallTool handler. A known tool name with arguments that fail its
      guard is rejected with InvalidParams and nothing is posted; any other
      name is MethodNotFound; otherwise the arguments are posted once. */
  function CallTool(name: string, arguments: Option<Json>, server: Request -> Attempt<Json>): (call: Call)
    ensures call.posted.Some? <==>
      (name == "scrape_url" && IsScrapeUrlArgs(arguments)) ||
      (name == "search_content" && IsSearchContentArgs(arguments))
    ensures call.posted.Some? ==>
      call.posted.value == Post(if name == "scrape_url" then "/scrape" else "/search", arguments.value)
    ensures call.posted.Some? ==>
      call == Answer(if name == "scrape_url" then "/scrape" else "/search", arguments.value, server)
    ensures call.outcome == Rejected(McpError(InvalidParams, "Invalid scrape_url arguments")) <==>
      name == "scrape_url" && !IsScrapeUrlArgs(arguments)
    ensures call.outcome == Rejected(McpError(InvalidParams, "Invalid search_content arguments")) <==>
      name == "search_content" && !IsSearchContentArgs(arguments)
    ensures (call.outcome.Rejected? && call.outcome.error.code == MethodNotFound) <==>
      name != "scrape_url" && name != "search_content"
    ensures call.outcome.Rejected? && call.outcome.error.code == MethodNotFound ==>
      call.outcome.error.message == "Unknown tool: " + name
  {
    if name == "scrape_url" then
      if !IsScrapeUrlArgs(arguments) then Call(None, Rejected(McpError(InvalidParams, "Invalid scrape_url arguments")))
      else Answer("/scrape", arguments.value, server)
    else if name == "search_content" then
      if !IsSearchContentArgs(arguments) then Call(None, Rejected(McpError(InvalidParams, "Invalid search_content arguments")))
      else Answer("/search", arguments.value, server)
    else
      Call(None, Rejected(McpError(MethodNotFound, "Unknown tool: " + name)))
  }

  /** Rejection happens before any request: when nothing is posted, the
      server's behaviour cannot influence the outcome. */
  lemma RejectedBeforePost(name: string, arguments: Option<Json>, s1: Request -> Attempt<Json>, s2: Request -> Attempt<Json>)
    requires CallTool(name, arguments, s1).posted.None?
    ensures CallTool(name, arguments, s1) == CallTool(name, arguments, s2)
    ensures CallTool(name, arguments, s1).outcome.Rejected?
  {
  }

  /** The tools the server lists. */
  const AdvertisedTools: seq<string> := ["scrape_url", "search_content"]

  /** Every listed tool is dispatched: none of them is MethodNotFound. */
  lemma AdvertisedToolsDispatched(name: string, arguments: Option<Json>, server: Request -> Attempt<Json>)
    requires name in AdvertisedTools
    ensures var call := CallTool(name, arguments, server);
      !(call.outcome.Rejected? && call.outcome.error.code == MethodNotFound)
  {
  }

  /** How an HTTP failure is reported: the body's `message` when it is set,
      the client's message when the body has none or when there is no
      response, and a crash when the body is `null`. */
  lemma FirecrawlDetailExamples(message: string)
    ensures FirecrawlDetail(AxiosError(message, None, Some(Response(500, Obj(map["message" := Str("down")]))))) == Some("down")
    ensures FirecrawlDetail(AxiosError(message, None, Some(Response(500, Obj(map["message" := Null]))))) == Some(message)
    ensures FirecrawlDetail(AxiosError(message, None, Some(Response(500, Obj(map["message" := Str("")]))))) == Some("")
    ensures FirecrawlDetail(AxiosError(message, None, Some(Response(500, Null)))) == None
    ensures FirecrawlDetail(AxiosError(message, Some("ECONNRESET"), None)) == Some(message)
  {
    assert Get(Obj(map["message" := Str("down")]), "message") == Some(Str("down"));
    assert Get(Obj(map["message" := Null]), "message") == Some(Null);
    assert Get(Obj(map["message" := Str("")]), "message") == Some(Str(""));
  }
}
