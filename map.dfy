/** The map tool's argument check and the site-tree formatter that turns a
    list of (url, parent) links into a forest keyed by root URL. */
module MapTool {
  import opened Wrappers
  import opened JsonValues
  import opened ArgShapes
  import opened ErrorHandling
  import opened ToolEnvelope

  /** `execute`: the arguments go unchanged to `/map` under the retry
      executor, and a success is answered with one text block of the response body. */
  method Execute(args: Json, server: (Request, nat) -> Attempt<Json>, config: Config)
    returns (result: Result<ToolResponse, McpError>, posted: seq<Request>, delays: seq<nat>)
    ensures var run := Run(Calling(server, Post("/map", args)), config, 0);
      && |posted| == run.calls
      && (forall k :: 0 <= k < |posted| ==> posted[k] == Post("/map", args))
      && delays == run.delays
      && (run.result.Ok? ==> result == Ok(Envelope(run.result.value)))
      && (run.result.Err? ==> result == Err(run.result.error))
  {
    result, posted, delays := ToolEnvelope.Execute("/map", args, server, config);
  }

  /** Every member `validate` inspects; all are optional but `url`. */
  const CheckedFields: seq<Field> := [
    Field("url", StringKind, true),
    Field("search", StringKind, false),
    Field("limit", NumberKind, false),
    Field("timeout", NumberKind, false),
    Field("ignoreSitemap", BooleanKind, false),
    Field("sitemapOnly", BooleanKind, false),
    Field("includeSubdomains", BooleanKind, false)
  ]

  /** Accepts exactly the objects with a string `url` whose `search` is a
      string, `limit` and `timeout` numbers, and `ignoreSitemap`,
      `sitemapOnly` and `includeSubdomains` booleans, each only when present. */
  function Validate(args: Json): (valid: bool)
    ensures valid <==> Conforms(args, ObjectOf(CheckedFields))
  {
    if TypeOf(Some(args)) != ObjectType || args == Null then false
    else
      var url := Get(args, "url");
      var search := Get(args, "search");
      var limit := Get(args, "limit");
      var timeout := Get(args, "timeout");
      var ignoreSitemap := Get(args, "ignoreSitemap");
      var sitemapOnly := Get(args, "sitemapOnly");
      var includeSubdomains := Get(args, "includeSubdomains");
      if TypeOf(url) != StringType then
        assert !MemberConforms(args, CheckedFields[0]);
        false
      else if search != None && TypeOf(search) != StringType then
        assert !MemberConforms(args, CheckedFields[1]);
        false
      else if limit != None && TypeOf(limit) != NumberType then
        assert !MemberConforms(args, CheckedFields[2]);
        false
      else if timeout != None && TypeOf(timeout) != NumberType then
        assert !MemberConforms(args, CheckedFields[3]);
        false
      else if ignoreSitemap != None && TypeOf(ignoreSitemap) != BooleanType then
        assert !MemberConforms(args, CheckedFields[4]);
        false
      else if sitemapOnly != None && TypeOf(sitemapOnly) != BooleanType then
        assert !MemberConforms(args, CheckedFields[5]);
        false
      else if includeSubdomains != None && TypeOf(includeSubdomains) != BooleanType then
        assert !MemberConforms(args, CheckedFields[6]);
        false
      else
        assert forall i :: 0 <= i < |CheckedFields| ==> MemberConforms(args, CheckedFields[i]);
        true
  }

  /** A discovered page and, optionally, the page it was linked from. */
  datatype SiteLink = SiteLink(url: string, parent: Option<string>)

  /** A node of the site tree. A leaf carries no `children` member at all,
      rather than an empty one. */
  datatype SiteMapNode =
    | Leaf(url: string)
    | Branch(url: string, children: seq<SiteMapNode>)

  /** `!link.parent`: no parent, or the empty string. */
  predicate IsRoot(link: SiteLink)
  {
    link.parent.None? || link.parent.value == ""
  }

  /** `links.filter((link) => !link.parent)` */
  function Roots(links: seq<SiteLink>): (roots: seq<SiteLink>)
    ensures forall l :: l in roots <==> l in links && IsRoot(l)
    ensures |roots| <= |links|
  {
    if links == [] then []
    else if IsRoot(links[0]) then [links[0]] + Roots(links[1..])
    else Roots(links[1..])
  }

  /** `links.filter((link) => link.parent === url)` */
  function ChildLinks(links: seq<SiteLink>, url: string): (kids: seq<SiteLink>)
    ensures forall l :: l in kids <==> l in links && l.parent == Some(url)
    ensures |kids| <= |links|
  {
    if links == [] then []
    else if links[0].parent == Some(url) then [links[0]] + ChildLinks(links[1..], url)
    else ChildLinks(links[1..], url)
  }

  /** Filtering keeps the input order: the children found in `a + b` are
      those found in `a` followed by those found in `b`. */
  lemma {:induction false} ChildLinksAppend(a: seq<SiteLink>, b: seq<SiteLink>, url: string)
    ensures ChildLinks(a + b, url) == ChildLinks(a, url) + ChildLinks(b, url)
  {
    if a == [] {
      assert a + b == b;
    } else {
      assert (a + b)[1..] == a[1..] + b;
      ChildLinksAppend(a[1..], b, url);
    }
  }

  /** The parent relation is well-founded: every link ranks below its parent.
      Without it `buildNode` recurses forever on a cycle such as a page that
      names itself as its parent. */
  predicate Ranked(links: seq<SiteLink>, rank: string -> nat)
  {
    forall l :: l in links && l.parent.Some? ==> rank(l.url) < rank(l.parent.value)
  }

  /** `buildNode`: the node for `url`, whose children, when there are any,
      are the nodes of the links naming `url` as parent, in link order. */
  function BuildNode(links: seq<SiteLink>, url: string, ghost rank: string -> nat): (node: SiteMapNode)
    requires Ranked(links, rank)
    ensures node.url == url
    ensures node.Leaf? <==> ChildLinks(links, url) == []
    ensures node.Branch? ==>
      && |node.children| == |ChildLinks(links, url)|
      && forall i :: 0 <= i < |node.children| ==> node.children[i].url == ChildLinks(links, url)[i].url
    decreases rank(url)
  {
    var kids := ChildLinks(links, url);
    if |kids| > 0 then
      Branch(url, seq(|kids|, i requires 0 <= i < |kids| => BuildNode(links, kids[i].url, rank)))
    else
      Leaf(url)
  }

  /** What a site tree of `links` is, independently of how it is built: a
      node has children exactly when some link names it as parent, and then
      one child per such link, in link order, each itself a site tree. */
  predicate IsTreeOf(node: SiteMapNode, links: seq<SiteLink>)
    decreases node
  {
    var kids := ChildLinks(links, node.url);
    match node
    case Leaf(_) => kids == []
    case Branch(_, children) =>
      && kids != []
      && |children| == |kids|
      && forall i :: 0 <= i < |children| ==> children[i].url == kids[i].url && IsTreeOf(children[i], links)
  }

  /** `buildNode` builds a site tree. */
  lemma {:induction false} BuildNodeIsTree(links: seq<SiteLink>, url: string, rank: string -> nat)
    requires Ranked(links, rank)
    ensures IsTreeOf(BuildNode(links, url, rank), links)
    decreases rank(url)
  {
    var node := BuildNode(links, url, rank);
    var kids := ChildLinks(links, url);
    if node.Branch? {
      forall i | 0 <= i < |node.children|
        ensures IsTreeOf(node.children[i], links)
      {
        assert kids[i] in links;
        BuildNodeIsTree(links, kids[i].url, rank);
      }
    }
  }

  /** A site tree is determined by its root URL, so `buildNode` builds the
      only one there is. */
  lemma {:induction false} TreeUnique(links: seq<SiteLink>, n1: SiteMapNode, n2: SiteMapNode)
    requires IsTreeOf(n1, links) && IsTreeOf(n2, links) && n1.url == n2.url
    ensures n1 == n2
    decreases n1
  {
    if n1.Branch? {
      var c1, c2 := n1.children, n2.children;
      forall i | 0 <= i < |c1|
        ensures c1[i] == c2[i]
      {
        TreeUnique(links, c1[i], c2[i]);
      }
      assert c1 == c2;
    }
  }

  /** Every URL in a site tree is the root's URL or the URL of one of the links. */
  function TreeUrls(node: SiteMapNode): set<string>
    decreases node
  {
    {node.url} +
      match node
      case Leaf(_) => {}
      case Branch(_, children) => set i, u | 0 <= i < |children| && u in TreeUrls(children[i]) :: u
  }

  lemma {:induction false} TreeUrlsFromLinks(node: SiteMapNode, links: seq<SiteLink>)
    requires IsTreeOf(node, links)
    ensures forall u :: u in TreeUrls(node) ==> u == node.url || exists l :: l in links && l.url == u && l.parent.Some?
    decreases node
  {
    if node.Branch? {
      var children := node.children;
      var kids := ChildLinks(links, node.url);
      forall i | 0 <= i < |children|
        ensures forall u :: u in TreeUrls(children[i]) ==> exists l :: l in links && l.url == u && l.parent.Some?
      {
        assert kids[i] in kids;
        TreeUrlsFromLinks(children[i], links);
      }
    }
  }

  /** `formatTree`: one entry per root link, keyed by its URL and holding
      that URL's site tree. A repeated root URL is written twice to the
      same key with the same node. */
  method FormatTree(links: seq<SiteLink>, ghost rank: string -> nat) returns (tree: map<string, SiteMapNode>)
    requires Ranked(links, rank)
    ensures tree.Keys == set l | l in links && IsRoot(l) :: l.url
    ensures forall key :: key in tree ==> tree[key] == BuildNode(links, key, rank)
  {
    var rootNodes := Roots(links);
    tree := map[];
    var i := 0;
    while i < |rootNodes|
      invariant 0 <= i <= |rootNodes|
      invariant tree.Keys == set j | 0 <= j < i :: rootNodes[j].url
      invariant forall key :: key in tree ==> tree[key] == BuildNode(links, key, rank)
    {
      tree := tree[rootNodes[i].url := BuildNode(links, rootNodes[i].url, rank)];
      i := i + 1;
    }
    assert forall l :: l in links && IsRoot(l) ==> exists j :: 0 <= j < |rootNodes| && rootNodes[j] == l;
  }

  /** Each entry of the formatted tree is a site tree rooted at its key. */
  lemma FormatTreeEntries(links: seq<SiteLink>, rank: string -> nat, key: string)
    requires Ranked(links, rank)
    ensures BuildNode(links, key, rank).url == key && IsTreeOf(BuildNode(links, key, rank), links)
  {
    BuildNodeIsTree(links, key, rank);
  }

  /** The rank used for the example site: the depth of the page below the leaves. */
  function ExampleRank(u: string): nat
  {
    if u == "/" then 2 else if u == "/a" || u == "/b" then 1 else 0
  }

  const ExampleLinks: seq<SiteLink> :=
    [SiteLink("/", None), SiteLink("/a", Some("/")), SiteLink("/b", Some("/")), SiteLink("/a/1", Some("/a"))]

  lemma ExampleRanked()
    ensures Ranked(ExampleLinks, ExampleRank)
  {
  }

  /** Which links name each page of the example site as parent. */
  lemma ExampleChildren()
    ensures ChildLinks(ExampleLinks, "/") == [SiteLink("/a", Some("/")), SiteLink("/b", Some("/"))]
    ensures ChildLinks(ExampleLinks, "/a") == [SiteLink("/a/1", Some("/a"))]
    ensures ChildLinks(ExampleLinks, "/b") == []
    ensures ChildLinks(ExampleLinks, "/a/1") == []
  {
    assert ExampleLinks[1..][1..][1..][1..] == [];
  }

  const ExampleTree: SiteMapNode := Branch("/", [Branch("/a", [Leaf("/a/1")]), Leaf("/b")])

  /** Any links with the example site's parent relation have the example tree as site tree. */
  lemma ExampleTreeIsTree(links: seq<SiteLink>)
    requires ChildLinks(links, "/") == [SiteLink("/a", Some("/")), SiteLink("/b", Some("/"))]
    requires ChildLinks(links, "/a") == [SiteLink("/a/1", Some("/a"))]
    requires ChildLinks(links, "/b") == [] && ChildLinks(links, "/a/1") == []
    ensures IsTreeOf(ExampleTree, links)
  {
    assert IsTreeOf(Leaf("/a/1"), links) && IsTreeOf(Leaf("/b"), links);
    assert IsTreeOf(Branch("/a", [Leaf("/a/1")]), links);
  }

  /** A small site: a home page with two sections, one of which has a page. */
  lemma FormatExample()
    ensures Ranked(ExampleLinks, ExampleRank)
    ensures BuildNode(ExampleLinks, "/", ExampleRank) == ExampleTree
  {
    ExampleRanked();
    ExampleChildren();
    ExampleTreeIsTree(ExampleLinks);
    BuildNodeIsTree(ExampleLinks, "/", ExampleRank);
    TreeUnique(ExampleLinks, BuildNode(ExampleLinks, "/", ExampleRank), ExampleTree);
  }
}
