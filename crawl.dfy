/** The crawl tool's argument check and its include/exclude URL filter. */
module CrawlTool {
  import opened Wrappers
  import opened JsonValues
  import opened ArgShapes
  import opened ErrorHandling
  import opened ToolEnvelope

  /** `execute`: the arguments go unchanged to `/crawl` under the retry
      executor, and a success is answered with one text block of the response body. */
  method Execute(args: Json, server: (Request, nat) -> Attempt<Json>, config: Config)
    returns (result: Result<ToolResponse, McpError>, posted: seq<Request>, delays: seq<nat>)
    ensures var run := Run(Calling(server, Post("/crawl", args)), config, 0);
      && |posted| == run.calls
      && (forall k :: 0 <= k < |posted| ==> posted[k] == Post("/crawl", args))
      && delays == run.delays
      && (run.result.Ok? ==> result == Ok(Envelope(run.result.value)))
      && (run.result.Err? ==> result == Err(run.result.error))
  {
    result, posted, delays := ToolEnvelope.Execute("/crawl", args, server, config);
  }

  /** The members `validate` inspects. `ignoreSitemap`, `ignoreQueryParameters`,
      `allowBackwardLinks`, `allowExternalLinks` and `scrapeOptions` are not checked. */
  const CheckedFields: seq<Field> := [
    Field("url", StringKind, true),
    Field("maxDepth", NumberKind, false),
    Field("excludePaths", StringArrayKind, false),
    Field("includePaths", StringArrayKind, false),
    Field("limit", NumberKind, false),
    Field("webhook", StringKind, false)
  ]

  /** Accepts exactly the objects with a string `url` whose `maxDepth` and
      `limit` are numbers, `excludePaths` and `includePaths` string arrays
      and `webhook` a string, each only when present. */
  function Validate(args: Json): (valid: bool)
    ensures valid <==> Conforms(args, ObjectOf(CheckedFields))
  {
    if TypeOf(Some(args)) != ObjectType || args == Null then false
    else
      var url := Get(args, "url");
      var maxDepth := Get(args, "maxDepth");
      var excludePaths := Get(args, "excludePaths");
      var includePaths := Get(args, "includePaths");
      var limit := Get(args, "limit");
      var webhook := Get(args, "webhook");
      if TypeOf(url) != StringType then
        assert !MemberConforms(args, CheckedFields[0]);
        false
      else if maxDepth != None && TypeOf(maxDepth) != NumberType then
        assert !MemberConforms(args, CheckedFields[1]);
        false
      else if excludePaths != None && (!IsArray(excludePaths) || !EveryString(excludePaths.value.items)) then
        assert !MemberConforms(args, CheckedFields[2]);
        false
      else if includePaths != None && (!IsArray(includePaths) || !EveryString(includePaths.value.items)) then
        assert !MemberConforms(args, CheckedFields[3]);
        false
      else if limit != None && TypeOf(limit) != NumberType then
        assert !MemberConforms(args, CheckedFields[4]);
        false
      else if webhook != None && TypeOf(webhook) != StringType then
        assert !MemberConforms(args, CheckedFields[5]);
        false
      else
        assert forall i :: 0 <= i < |CheckedFields| ==> MemberConforms(args, CheckedFields[i]);
        true
  }

  /** `pattern` occurs in `s` starting at position `i`. */
  predicate OccursAt(s: string, pattern: string, i: nat)
  {
    i + |pattern| <= |s| && s[i..i + |pattern|] == pattern
  }

  /** `s.includes(pattern)`, scanning the start positions left to right. */
  function Includes(s: string, pattern: string): (found: bool)
    ensures found <==> exists i: nat :: i <= |s| && OccursAt(s, pattern, i)
  {
    if pattern <= s then
      assert OccursAt(s, pattern, 0);
      true
    else if |s| == 0 then
      false
    else
      var rest := Includes(s[1..], pattern);
      assert rest ==> exists i: nat :: i <= |s| && OccursAt(s, pattern, i) by {
        if rest {
          var j: nat :| j <= |s[1..]| && OccursAt(s[1..], pattern, j);
          assert s[1..][j..j + |pattern|] == s[j + 1..j + 1 + |pattern|];
          assert OccursAt(s, pattern, j + 1);
        }
      }
      assert (exists i: nat :: i <= |s| && OccursAt(s, pattern, i)) ==> rest by {
        if exists i: nat :: i <= |s| && OccursAt(s, pattern, i) {
          var i: nat :| i <= |s| && OccursAt(s, pattern, i);
          assert s[1..][i - 1..i - 1 + |pattern|] == s[i..i + |pattern|];
          assert OccursAt(s[1..], pattern, i - 1);
        }
      }
      rest
  }

  /** `patterns.some((p) => url.includes(p))` */
  predicate SomeIncluded(url: string, patterns: seq<string>)
  {
    exists p :: p in patterns && Includes(url, p)
  }

  /** A URL is crawled unless some exclude pattern occurs in it, or a
      non-empty include list is given and none of its patterns occurs in it. */
  function ShouldCrawl(url: string, includePaths: Option<seq<string>>, excludePaths: Option<seq<string>>): (crawl: bool)
    ensures crawl <==>
      && (excludePaths.Some? ==> forall p, i: nat :: p in excludePaths.value && i <= |url| ==> !OccursAt(url, p, i))
      && (includePaths.Some? && |includePaths.value| > 0 ==>
            exists p, i: nat :: p in includePaths.value && i <= |url| && OccursAt(url, p, i))
  {
    if excludePaths.Some? && SomeIncluded(url, excludePaths.value) then false
    else if includePaths.Some? && |includePaths.value| > 0 && !SomeIncluded(url, includePaths.value) then false
    else true
  }

  /** Exclusion wins: a URL matching an exclude pattern is never crawled,
      whatever the include list says. */
  lemma ExclusionWins(url: string, includePaths: Option<seq<string>>, excludes: seq<string>, pattern: string)
    requires pattern in excludes && Includes(url, pattern)
    ensures !ShouldCrawl(url, includePaths, Some(excludes))
  {
  }

  /** An absent or empty include list restricts nothing. */
  lemma EmptyIncludeUnrestricted(url: string, includePaths: Option<seq<string>>, excludePaths: Option<seq<string>>)
    requires includePaths.None? || includePaths.value == []
    ensures ShouldCrawl(url, includePaths, excludePaths) == ShouldCrawl(url, None, excludePaths)
    ensures ShouldCrawl(url, includePaths, None)
  {
  }

  /** The empty pattern occurs in every URL, so excluding it excludes everything. */
  lemma EmptyPatternExcludesAll(url: string, includePaths: Option<seq<string>>)
    ensures !ShouldCrawl(url, includePaths, Some([""]))
  {
    assert Includes(url, "");
  }
}
