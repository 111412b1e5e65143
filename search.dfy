/** The search_content tool's argument check and its result projection. */
module SearchTool {
  import opened Wrappers
  import opened JsonValues
  import opened ArgShapes
  import opened ErrorHandling
  import opened ToolEnvelope

  /** `execute`: the arguments go unchanged to `/search` under the retry
      executor, and a success is answered with one text block of the response body. */
  method Execute(args: Json, server: (Request, nat) -> Attempt<Json>, config: Config)
    returns (result: Result<ToolResponse, McpError>, posted: seq<Request>, delays: seq<nat>)
    ensures var run := Run(Calling(server, Post("/search", args)), config, 0);
      && |posted| == run.calls
      && (forall k :: 0 <= k < |posted| ==> posted[k] == Post("/search", args))
      && delays == run.delays
      && (run.result.Ok? ==> result == Ok(Envelope(run.result.value)))
      && (run.result.Err? ==> result == Err(run.result.error))
  {
    result, posted, delays := ToolEnvelope.Execute("/search", args, server, config);
  }

  /** The members `validate` inspects. The advertised 1..100 range of
      `limit` and the options `lang`, `country`, `location` and `timeout`
      are not checked. */
  const CheckedFields: seq<Field> := [
    Field("query", StringKind, true),
    Field("scrapeOptions", ObjectOf([Field("formats", StringArrayKind, false)]), false),
    Field("limit", NumberKind, false)
  ]

  /** Accepts exactly the objects with a string `query`, whose
      `scrapeOptions`, when present, is an object whose `formats`, when
      present, is an array of strings, and whose `limit`, when present, is a number. */
  function Validate(args: Json): (valid: bool)
    ensures valid <==> Conforms(args, ObjectOf(CheckedFields))
  {
    if TypeOf(Some(args)) != ObjectType || args == Null then false
    else
      var query := Get(args, "query");
      var scrapeOptions := Get(args, "scrapeOptions");
      var limit := Get(args, "limit");
      if TypeOf(query) != StringType then
        assert !MemberConforms(args, CheckedFields[0]);
        false
      else if scrapeOptions != None &&
              (TypeOf(scrapeOptions) != ObjectType || scrapeOptions == Some(Null) ||
               (Member(scrapeOptions, "formats") != None &&
                (!IsArray(Member(scrapeOptions, "formats")) ||
                 !EveryString(Member(scrapeOptions, "formats").value.items)))) then
        assert IsObject(scrapeOptions.value) ==> !MemberConforms(scrapeOptions.value, CheckedFields[1].kind.fields[0]);
        assert !MemberConforms(args, CheckedFields[1]);
        false
      else if limit != None && TypeOf(limit) != NumberType then
        assert !MemberConforms(args, CheckedFields[2]);
        false
      else
        assert forall i :: 0 <= i < |CheckedFields| ==> MemberConforms(args, CheckedFields[i]);
        true
  }

  /** Any number passes as `limit`, also one outside the advertised range 1..100. */
  lemma LimitRangeNotEnforced(query: string)
    ensures Validate(Obj(map["query" := Str(query), "limit" := Num(1000)]))
    ensures Validate(Obj(map["query" := Str(query), "limit" := Num(0)]))
  {
    var big := Obj(map["query" := Str(query), "limit" := Num(1000)]);
    var zero := Obj(map["query" := Str(query), "limit" := Num(0)]);
    assert Get(big, "query") == Some(Str(query)) && Get(big, "scrapeOptions") == None && Get(big, "limit") == Some(Num(1000));
    assert Get(zero, "query") == Some(Str(query)) && Get(zero, "scrapeOptions") == None && Get(zero, "limit") == Some(Num(0));
  }

  /** The members a markdown-formatted result keeps. */
  const ResultFields: set<string> := {"title", "url", "snippet", "content"}

  /** `{title: r.title, url: r.url, snippet: r.snippet, content: r.content}`;
      members that read as `undefined` are left out. */
  function Project(result: Json): (projected: Json)
    requires result != Null
    ensures projected.Obj? && projected.fields.Keys <= ResultFields
    ensures forall k :: k in ResultFields ==> Get(projected, k) == Get(result, k)
  {
    Obj(map k | k in ResultFields && Get(result, k).Some? :: Get(result, k).value)
  }

  /** For format "markdown" (the default) each result is cut down to its
      title, url, snippet and content, in the same order; a `null` result
      makes the projection throw (None). Any other format passes the
      results through unchanged. */
  function ProcessResults(results: seq<Json>, format: Option<string>): (processed: Option<seq<Json>>)
    ensures (if format.Some? then format.value else "markdown") != "markdown" ==> processed == Some(results)
    ensures (if format.Some? then format.value else "markdown") == "markdown" ==>
      && (processed.Some? <==> Null !in results)
      && (processed.Some? ==>
            && |processed.value| == |results|
            && forall i :: 0 <= i < |results| ==>
                 && processed.value[i].Obj?
                 && processed.value[i].fields.Keys <= ResultFields
                 && forall k :: k in ResultFields ==> Get(processed.value[i], k) == Get(results[i], k))
  {
    var effective := if format.Some? then format.value else "markdown";
    if effective == "markdown" then
      if Null in results then None
      else Some(seq(|results|, i requires 0 <= i < |results| => Project(results[i])))
    else Some(results)
  }

  /** Projecting twice is projecting once: a processed result list is left as it is. */
  lemma ProcessResultsIdempotent(results: seq<Json>, format: Option<string>)
    requires ProcessResults(results, format).Some?
    ensures ProcessResults(ProcessResults(results, format).value, format) == ProcessResults(results, format)
  {
    var once := ProcessResults(results, format).value;
    if (if format.Some? then format.value else "markdown") == "markdown" {
      assert Null !in once;
      var twice := ProcessResults(once, format).value;
      forall i | 0 <= i < |once|
        ensures twice[i] == once[i]
      {
        assert twice[i].fields.Keys == once[i].fields.Keys;
        assert forall k :: k in once[i].fields ==> Get(twice[i], k) == Get(once[i], k);
      }
      assert twice == once;
    }
  }
}
