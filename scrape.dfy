/** The scrape_url tool's argument check. */
module ScrapeTool {
  import opened Wrappers
  import opened JsonValues
  import opened ArgShapes
  import opened ErrorHandling
  import opened ToolEnvelope

  /** `execute`: the arguments go unchanged to `/scrape` under the retry
      executor, and a success is answered with one text block of the response body. */
  method Execute(args: Json, server: (Request, nat) -> Attempt<Json>, config: Config)
    returns (result: Result<ToolResponse, McpError>, posted: seq<Request>, delays: seq<nat>)
    ensures var run := Run(Calling(server, Post("/scrape", args)), config, 0);
      && |posted| == run.calls
      && (forall k :: 0 <= k < |posted| ==> posted[k] == Post("/scrape", args))
      && delays == run.delays
      && (run.result.Ok? ==> result == Ok(Envelope(run.result.value)))
      && (run.result.Err? ==> result == Err(run.result.error))
  {
    result, posted, delays := ToolEnvelope.Execute("/scrape", args, server, config);
  }

  /** The members `validate` inspects. Every other advertised option
      (`onlyMainContent`, `mobile`, `location`, `blockAds`, ...) is unchecked. */
  const CheckedFields: seq<Field> := [
    Field("url", StringKind, true),
    Field("jsonOptions", ObjectOf([Field("prompt", StringKind, true)]), false),
    Field("formats", StringArrayKind, false)
  ]

  /** Accepts exactly the objects with a string `url`, whose `jsonOptions`,
      when present, is an object with a string `prompt`, and whose `formats`,
      when present, is an array of strings. */
  function Validate(args: Json): (valid: bool)
    ensures valid <==> Conforms(args, ObjectOf(CheckedFields))
  {
    if TypeOf(Some(args)) != ObjectType || args == Null then false
    else
      var url := Get(args, "url");
      var jsonOptions := Get(args, "jsonOptions");
      var formats := Get(args, "formats");
      if TypeOf(url) != StringType then
        assert !MemberConforms(args, CheckedFields[0]);
        false
      else if jsonOptions != None &&
              (TypeOf(jsonOptions) != ObjectType || jsonOptions == Some(Null) ||
               TypeOf(Member(jsonOptions, "prompt")) != StringType) then
        assert IsObject(jsonOptions.value) ==> !MemberConforms(jsonOptions.value, CheckedFields[1].kind.fields[0]);
        assert !MemberConforms(args, CheckedFields[1]);
        false
      else if formats != None && (!IsArray(formats) || !EveryString(formats.value.items)) then
        assert !MemberConforms(args, CheckedFields[2]);
        false
      else
        assert forall i :: 0 <= i < |CheckedFields| ==> MemberConforms(args, CheckedFields[i]);
        true
  }

  /** The validation fixtures: `{}` and `{formats: ["markdown"]}` lack a url
      and are rejected; `{url}` is accepted. */
  lemma ValidateExamples()
    ensures !Validate(Obj(map[]))
    ensures !Validate(Obj(map["formats" := Arr([Str("markdown")])]))
    ensures Validate(Obj(map["url" := Str("https://x")]))
  {
    assert Get(Obj(map[]), "url") == None;
    assert Get(Obj(map["formats" := Arr([Str("markdown")])]), "url") == None;
    var plain := Obj(map["url" := Str("https://x")]);
    assert Get(plain, "url") == Some(Str("https://x"));
    assert Get(plain, "jsonOptions") == None && Get(plain, "formats") == None;
  }

  const ComplexOptions: Json := Obj(map["prompt" := Str("Extract data"), "schema" := Obj(map["type" := Str("object")])])
  const ComplexFormats: Json := Arr([Str("json"), Str("markdown")])
  const ComplexCore: map<string, Json> :=
    map["url" := Str("https://example.com"), "jsonOptions" := ComplexOptions, "formats" := ComplexFormats]
  const ComplexLocation: Json := Obj(map["country" := Str("US"), "languages" := Arr([Str("en-US")])])

  lemma ComplexCoreValid()
    ensures Validate(Obj(ComplexCore))
  {
    assert Get(Obj(ComplexCore), "url") == Some(Str("https://example.com"));
    assert Get(Obj(ComplexCore), "jsonOptions") == Some(ComplexOptions);
    assert Get(ComplexOptions, "prompt") == Some(Str("Extract data"));
    assert Get(Obj(ComplexCore), "formats") == Some(ComplexFormats);
    assert EveryString(ComplexFormats.items);
  }

  lemma CheckedNames()
    ensures Names(CheckedFields) == {"url", "jsonOptions", "formats"}
  {
  }

  /** The complex argument object of the tests is accepted: `mobile` and
      `location` are not looked at. */
  lemma ValidateComplexExample()
    ensures Validate(Obj(ComplexCore["mobile" := Bool(true)]["location" := ComplexLocation]))
  {
    ComplexCoreValid();
    CheckedNames();
    UnknownMemberIgnored(CheckedFields, ComplexCore, "mobile", Bool(true));
    UnknownMemberIgnored(CheckedFields, ComplexCore["mobile" := Bool(true)], "location", ComplexLocation);
  }
}
