/** The shared argument type guards. The scrape and search guards repeat the
    tools' own `validate` checks; the crawl, map and extract guards check
    only the one required member. */
module TypeGuards {
  import opened Wrappers
  import opened JsonValues
  import opened ArgShapes
  import ScrapeTool
  import SearchTool
  import CrawlTool
  import MapTool
  import ExtractTool

  /** `isScrapeUrlArgs`: the same checks, in the same order, as the scrape tool's `validate`. */
  function IsScrapeUrlArgs(args: Json): (ok: bool)
    ensures ok <==> ScrapeTool.Validate(args)
  {
    if TypeOf(Some(args)) != ObjectType || args == Null then false
    else
      var url := Get(args, "url");
      var jsonOptions := Get(args, "jsonOptions");
      var formats := Get(args, "formats");
      if TypeOf(url) != StringType then false
      else if jsonOptions != None &&
              (TypeOf(jsonOptions) != ObjectType || jsonOptions == Some(Null) ||
               TypeOf(Member(jsonOptions, "prompt")) != StringType) then false
      else if formats != None && (!IsArray(formats) || !EveryString(formats.value.items)) then false
      else true
  }

  /** `isSearchContentArgs`: the same checks, in the same order, as the search tool's `validate`. */
  function IsSearchContentArgs(args: Json): (ok: bool)
    ensures ok <==> SearchTool.Validate(args)
  {
    if TypeOf(Some(args)) != ObjectType || args == Null then false
    else
      var query := Get(args, "query");
      var scrapeOptions := Get(args, "scrapeOptions");
      var limit := Get(args, "limit");
      if TypeOf(query) != StringType then false
      else if scrapeOptions != None &&
              (TypeOf(scrapeOptions) != ObjectType || scrapeOptions == Some(Null) ||
               (Member(scrapeOptions, "formats") != None &&
                (!IsArray(Member(scrapeOptions, "formats")) ||
                 !EveryString(Member(scrapeOptions, "formats").value.items)))) then false
      else if limit != None && TypeOf(limit) != NumberType then false
      else true
  }

  /** The shape the crawl and map guards check: a string `url` and nothing else. */
  const UrlOnly: seq<Field> := [Field("url", StringKind, true)]

  /** The shape the extract guard checks: a string-array `urls` and nothing else. */
  const UrlsOnly: seq<Field> := [Field("urls", StringArrayKind, true)]

  /** `isCrawlArgs`: a non-null object whose `url` is a string. */
  function IsCrawlArgs(args: Json): (ok: bool)
    ensures ok <==> Conforms(args, ObjectOf(UrlOnly))
  {
    if TypeOf(Some(args)) != ObjectType || args == Null then false
    else
      var url := Get(args, "url");
      assert TypeOf(url) != StringType ==> !MemberConforms(args, UrlOnly[0]);
      TypeOf(url) == StringType
  }

  /** `isMapArgs`: a non-null object whose `url` is a string. */
  function IsMapArgs(args: Json): (ok: bool)
    ensures ok <==> Conforms(args, ObjectOf(UrlOnly))
  {
    if TypeOf(Some(args)) != ObjectType || args == Null then false
    else
      var url := Get(args, "url");
      assert TypeOf(url) != StringType ==> !MemberConforms(args, UrlOnly[0]);
      TypeOf(url) == StringType
  }

  /** `isExtractArgs`: a non-null object whose `urls` is an array of strings. */
  function IsExtractArgs(args: Json): (ok: bool)
    ensures ok <==> Conforms(args, ObjectOf(UrlsOnly))
  {
    if TypeOf(Some(args)) != ObjectType || args == Null then false
    else
      var urls := Get(args, "urls");
      assert !(IsArray(urls) && EveryString(urls.value.items)) ==> !MemberConforms(args, UrlsOnly[0]);
      IsArray(urls) && EveryString(urls.value.items)
  }

  /** Whatever the crawl tool accepts passes the crawl guard. */
  lemma CrawlGuardWeaker(args: Json)
    requires CrawlTool.Validate(args)
    ensures IsCrawlArgs(args)
  {
    assert Subsumes(ObjectOf(CrawlTool.CheckedFields), ObjectOf(UrlOnly)) by {
      assert CrawlTool.CheckedFields[0] in CrawlTool.CheckedFields;
    }
    ConformsWeaken(args, ObjectOf(CrawlTool.CheckedFields), ObjectOf(UrlOnly));
  }

  /** ... but not conversely: the guard lets an ill-typed `maxDepth` through. */
  lemma CrawlGuardStrictlyWeaker()
    ensures var args := Obj(map["url" := Str("https://x"), "maxDepth" := Str("deep")]);
      IsCrawlArgs(args) && !CrawlTool.Validate(args)
  {
    var args := Obj(map["url" := Str("https://x"), "maxDepth" := Str("deep")]);
    assert Get(args, "url") == Some(Str("https://x"));
    assert Get(args, "maxDepth") == Some(Str("deep"));
  }

  /** Whatever the map tool accepts passes the map guard. */
  lemma MapGuardWeaker(args: Json)
    requires MapTool.Validate(args)
    ensures IsMapArgs(args)
  {
    assert Subsumes(ObjectOf(MapTool.CheckedFields), ObjectOf(UrlOnly)) by {
      assert MapTool.CheckedFields[0] in MapTool.CheckedFields;
    }
    ConformsWeaken(args, ObjectOf(MapTool.CheckedFields), ObjectOf(UrlOnly));
  }

  /** ... but not conversely: the guard lets a string `limit` through. */
  lemma MapGuardStrictlyWeaker()
    ensures var args := Obj(map["url" := Str("https://x"), "limit" := Str("ten")]);
      IsMapArgs(args) && !MapTool.Validate(args)
  {
    var args := Obj(map["url" := Str("https://x"), "limit" := Str("ten")]);
    assert Get(args, "url") == Some(Str("https://x"));
    assert Get(args, "limit") == Some(Str("ten"));
  }

  /** Whatever the extract tool accepts passes the extract guard. */
  lemma ExtractGuardWeaker(args: Json)
    requires ExtractTool.Validate(args)
    ensures IsExtractArgs(args)
  {
    assert Subsumes(ObjectOf(ExtractTool.CheckedFields), ObjectOf(UrlsOnly)) by {
      assert ExtractTool.CheckedFields[0] in ExtractTool.CheckedFields;
    }
    ConformsWeaken(args, ObjectOf(ExtractTool.CheckedFields), ObjectOf(UrlsOnly));
  }

  /** ... but not conversely: the guard lets a null `schema` through. */
  lemma ExtractGuardStrictlyWeaker()
    ensures var args := Obj(map["urls" := Arr([]), "schema" := Null]);
      IsExtractArgs(args) && !ExtractTool.Validate(args)
  {
    var args := Obj(map["urls" := Arr([]), "schema" := Null]);
    assert Get(args, "urls") == Some(Arr([]));
    assert Get(args, "schema") == Some(Null);
  }
}
