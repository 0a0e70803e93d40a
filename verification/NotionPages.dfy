/** The knowledge side of the Notion module: which pages are configured,
    how one page becomes a `NotionContext`, and how the cache fill turns the
    per-page results into one combined context. The Notion client and the
    Markdown converter are inputs: `retrieve` gives a page's metadata or the
    error it threw, `toMarkdown` its Markdown or the error. */
module NotionPages {
  import opened Wrappers
  import opened Text

  // ---------------------------------------------------------------------
  // Configured page ids (NOTION_PAGE_IDS)
  // ---------------------------------------------------------------------

  /** A well-formed page id: non-empty, no surrounding whitespace, no comma. */
  predicate IsPageId(id: string) {
    id != "" && Trimmed(id) && ',' !in id
  }

  /** Trims each comma-separated segment and drops the blank ones. */
  function CleanIds(segments: seq<string>): (ids: seq<string>)
    ensures |ids| <= |segments|
    ensures forall id :: id in ids ==> id != "" && Trimmed(id)
    ensures (forall s :: s in segments ==> ',' !in s) ==> forall id :: id in ids ==> ',' !in id
  {
    if segments == [] then []
    else
      var id := Trim(segments[0]);
      (if id != "" then [id] else []) + CleanIds(segments[1..])
  }

  /** The ids listed in NOTION_PAGE_IDS; `env` is the variable, `None` when unset. */
  function ParsePageIds(env: Option<string>): (ids: seq<string>)
    ensures env.None? || env == Some("") ==> ids == []
    ensures forall id :: id in ids ==> IsPageId(id)
  {
    if env.None? || env.value == "" then []
    else CleanIds(Split(env.value, ','))
  }

  /** Cleaning distributes over concatenation, so segment order is kept. */
  lemma {:induction false} CleanIdsAppend(a: seq<string>, b: seq<string>)
    ensures CleanIds(a + b) == CleanIds(a) + CleanIds(b)
  {
    if a != [] {
      assert (a + b)[0] == a[0];
      assert (a + b)[1..] == a[1..] + b;
      var head := if Trim(a[0]) != "" then [Trim(a[0])] else [];
      assert CleanIds(a + b) == head + CleanIds(a[1..] + b);
      assert CleanIds(a) == head + CleanIds(a[1..]);
      CleanIdsAppend(a[1..], b);
    } else {
      assert a + b == b;
    }
  }

  /** A segment that trims to nothing is dropped; every other segment
      contributes exactly its trimmed text, in place. */
  lemma CleanIdsSingle(segment: string)
    ensures Trim(segment) == "" ==> CleanIds([segment]) == []
    ensures Trim(segment) != "" ==> CleanIds([segment]) == [Trim(segment)]
  {
    assert [segment][1..] == [];
  }

  /** Listing well-formed ids joined by commas reads back exactly those ids,
      in order. */
  lemma {:induction false} ParsePageIdsRoundTrip(ids: seq<string>)
    requires forall id :: id in ids ==> IsPageId(id)
    ensures ParsePageIds(Some(Join(ids, ","))) == ids
  {
    if ids != [] {
      SplitJoin(ids, ',');
      CleanIdsOfIds(ids);
      assert Join(ids, ",") != "" by { assert |ids[0]| > 0; }
    }
  }

  lemma {:induction false} CleanIdsOfIds(ids: seq<string>)
    requires forall id :: id in ids ==> IsPageId(id)
    ensures CleanIds(ids) == ids
  {
    if ids != [] {
      assert ids[0] in ids;
      CleanIdsOfIds(ids[1..]);
      assert [ids[0]] + ids[1..] == ids;
    }
  }

  // ---------------------------------------------------------------------
  // One page
  // ---------------------------------------------------------------------

  /** A page property: its `type` and, for a title property, the `plain_text`
      of each of its rich-text items (empty when absent). */
  datatype Property = Property(kind: string, titleText: seq<string>)

  /** The page metadata the title rule reads: `properties` in their object
      order (`None` when the page has none) and `icon.emoji`. */
  datatype PageMeta = PageMeta(properties: Option<seq<Property>>, iconEmoji: Option<string>)

  /** One fetched page. */
  datatype NotionContext = NotionContext(pageId: string, content: string, title: string, lastUpdated: int)

  /** The index of the first property whose type is "title". */
  function FirstTitleProperty(props: seq<Property>): (found: Option<nat>)
    ensures found.Some? ==> found.value < |props| && props[found.value].kind == "title"
    ensures found.Some? ==> forall k :: 0 <= k < found.value ==> props[k].kind != "title"
    ensures found.None? ==> forall k :: 0 <= k < |props| ==> props[k].kind != "title"
  {
    if props == [] then None
    else if props[0].kind == "title" then Some(0)
    else match FirstTitleProperty(props[1..])
      case None => None
      case Some(i) => Some(i + 1)
  }

  /** The title rule: the joined text of the first title property when it
      has items, otherwise "<emoji> Page" when there is an emoji icon,
      otherwise "Untitled"; a page without properties is "Untitled". */
  function PageTitle(page: PageMeta): string {
    match page.properties
    case None => "Untitled"
    case Some(props) =>
      var found := FirstTitleProperty(props);
      if found.Some? && |props[found.value].titleText| > 0 then
        Concat(props[found.value].titleText)
      else if page.iconEmoji.Some? && page.iconEmoji.value != "" then
        page.iconEmoji.value + " Page"
      else
        "Untitled"
  }

  /** The title extraction as the source performs it: start from
      "Untitled", scan the properties for the first title property and
      overwrite the title when a rule applies. */
  method ExtractTitle(page: PageMeta) returns (title: string)
    ensures title == PageTitle(page)
  {
    title := "Untitled";
    if page.properties.Some? {
      var props := page.properties.value;
      var i := 0;
      while i < |props| && props[i].kind != "title"
        invariant 0 <= i <= |props|
        invariant forall k :: 0 <= k < i ==> props[k].kind != "title"
      {
        i := i + 1;
      }
      if i < |props| && |props[i].titleText| > 0 {
        title := Concat(props[i].titleText);
      } else if page.iconEmoji.Some? && page.iconEmoji.value != "" {
        title := page.iconEmoji.value + " Page";
      }
    }
  }

  /** The first title property of `props` is missing or has no items. */
  predicate NoTitleText(props: seq<Property>) {
    var found := FirstTitleProperty(props);
    found.None? || props[found.value].titleText == []
  }

  /** The title rule, case by case: the four outcomes of the source's
      branches, each under exactly the condition that selects it. */
  lemma PageTitleRules(page: PageMeta)
    ensures page.properties.None? ==> PageTitle(page) == "Untitled"
    ensures forall i ::
              (page.properties.Some? && 0 <= i < |page.properties.value| &&
               page.properties.value[i].kind == "title" && |page.properties.value[i].titleText| > 0 &&
               (forall k :: 0 <= k < i ==> page.properties.value[k].kind != "title"))
              ==> PageTitle(page) == Concat(page.properties.value[i].titleText)
    ensures page.properties.Some? && NoTitleText(page.properties.value) &&
            page.iconEmoji.Some? && page.iconEmoji.value != ""
            ==> PageTitle(page) == page.iconEmoji.value + " Page"
    ensures page.properties.Some? && NoTitleText(page.properties.value) &&
            (page.iconEmoji.None? || page.iconEmoji.value == "")
            ==> PageTitle(page) == "Untitled"
  {
  }

  /** `fetchNotionPage`: `None` (the source's `null`) when either Notion
      call threw, otherwise the page with its id, Markdown, title and the
      time it was read. */
  function FetchPage(pageId: string, meta: Result<PageMeta>, markdown: Result<string>, now: int): (r: Option<NotionContext>)
    ensures r.Some? <==> meta.Ok? && markdown.Ok?
    ensures r.Some? ==>
              r.value.pageId == pageId && r.value.content == markdown.value &&
              r.value.title == PageTitle(meta.value) && r.value.lastUpdated == now
  {
    match meta
    case Err(_) => None
    case Ok(m) =>
      match markdown
      case Err(_) => None
      case Ok(md) => Some(NotionContext(pageId, md, PageTitle(m), now))
  }

  /** The page fetcher the cache fill uses, built from the two Notion calls
      and the clock, each as a function of the page id. */
  function NotionFetcher(retrieve: string -> Result<PageMeta>, toMarkdown: string -> Result<string>,
                         clock: string -> int): (fetch: string -> Option<NotionContext>)
    ensures forall id :: fetch(id).Some? <==> retrieve(id).Ok? && toMarkdown(id).Ok?
    ensures forall id :: fetch(id).Some? ==> fetch(id).value.pageId == id
  {
    id => FetchPage(id, retrieve(id), toMarkdown(id), clock(id))
  }

  // ---------------------------------------------------------------------
  // The cache fill
  // ---------------------------------------------------------------------

  /** The context used when no page is configured. */
  const NoPagesMarker: string := "No Notion pages configured."

  /** The cached value: the combined context, the pages it was built from,
      and the fill time (absent in the no-pages result, as in the source). */
  datatype Snapshot = Snapshot(combinedContext: string, pages: seq<NotionContext>, fetchedAt: Option<int>)

  /** The pages whose fetch succeeded, in configured order. */
  function Fetched(ids: seq<string>, fetch: string -> Option<NotionContext>): (pages: seq<NotionContext>)
    ensures |pages| <= |ids|
  {
    if ids == [] then []
    else
      (match fetch(ids[0]) case None => [] case Some(p) => [p]) + Fetched(ids[1..], fetch)
  }

  /** The section one page contributes to the combined context: a header
      line naming the page, then its Markdown. */
  function Section(p: NotionContext): (r: string)
    ensures OccursAt("--- Page: ", r, 0)
    ensures OccursAt(p.title, r, 10)
    ensures OccursAt(" ---\n", r, 10 + |p.title|)
    ensures |r| == 15 + |p.title| + |p.content| && OccursAt(p.content, r, |r| - |p.content|)
  {
    "--- Page: " + p.title + " ---\n" + p.content
  }

  function Sections(pages: seq<NotionContext>): (r: seq<string>)
    ensures |r| == |pages|
    ensures forall i :: 0 <= i < |pages| ==> r[i] == Section(pages[i])
  {
    if pages == [] then [] else [Section(pages[0])] + Sections(pages[1..])
  }

  /** The combined context of a list of pages: their sections separated by
      a blank line. */
  function CombineContext(pages: seq<NotionContext>): (r: string)
    ensures pages == [] ==> r == ""
    ensures |pages| == 1 ==> r == Section(pages[0])
  {
    Join(Sections(pages), "\n\n")
  }

  /** The fill closure of the cached Notion loader. */
  function FillCache(pageIdsEnv: Option<string>, fetch: string -> Option<NotionContext>, now: int): (snap: Snapshot)
    ensures ParsePageIds(pageIdsEnv) == [] ==> snap == Snapshot(NoPagesMarker, [], None)
    ensures ParsePageIds(pageIdsEnv) != [] ==>
      snap.pages == Fetched(ParsePageIds(pageIdsEnv), fetch) && snap.fetchedAt == Some(now) &&
      snap.combinedContext == CombineContext(snap.pages)
  {
    var ids := ParsePageIds(pageIdsEnv);
    if |ids| == 0 then
      Snapshot(NoPagesMarker, [], None)
    else
      var pages := Fetched(ids, fetch);
      Snapshot(CombineContext(pages), pages, Some(now))
  }

  // ---------------------------------------------------------------------
  // Properties of the fill
  // ---------------------------------------------------------------------

  /** With no configured page, the fill consults no fetcher at all: its
      result is the marker whatever the fetcher would answer. */
  lemma FillWithoutPages(pageIdsEnv: Option<string>, fetch1: string -> Option<NotionContext>,
                         fetch2: string -> Option<NotionContext>, now: int)
    requires ParsePageIds(pageIdsEnv) == []
    ensures FillCache(pageIdsEnv, fetch1, now) == FillCache(pageIdsEnv, fetch2, now)
    ensures FillCache(pageIdsEnv, fetch1, now).combinedContext == NoPagesMarker
    ensures FillCache(pageIdsEnv, fetch1, now).pages == []
  {
  }

  /** The fill depends on the fetcher only at the configured ids. */
  lemma {:induction false} FetchedOnlyConfigured(ids: seq<string>, fetch1: string -> Option<NotionContext>,
                                                 fetch2: string -> Option<NotionContext>)
    requires forall id :: id in ids ==> fetch1(id) == fetch2(id)
    ensures Fetched(ids, fetch1) == Fetched(ids, fetch2)
  {
    if ids != [] {
      assert ids[0] in ids;
      FetchedOnlyConfigured(ids[1..], fetch1, fetch2);
    }
  }

  /** Fetched pages of consecutive id lists are consecutive. */
  lemma {:induction false} FetchedAppend(a: seq<string>, b: seq<string>, fetch: string -> Option<NotionContext>)
    ensures Fetched(a + b, fetch) == Fetched(a, fetch) + Fetched(b, fetch)
  {
    if a == [] {
      assert a + b == b;
    } else {
      assert (a + b)[0] == a[0];
      assert (a + b)[1..] == a[1..] + b;
      FetchedAppend(a[1..], b, fetch);
    }
  }

  /** A page whose fetch fails is dropped and the others keep their order:
      removing it from the configuration changes nothing. */
  lemma FailedFetchDropped(a: seq<string>, id: string, b: seq<string>, fetch: string -> Option<NotionContext>)
    requires fetch(id).None?
    ensures Fetched(a + [id] + b, fetch) == Fetched(a + b, fetch)
  {
    FetchedAppend(a + [id], b, fetch);
    FetchedAppend(a, [id], fetch);
    FetchedAppend(a, b, fetch);
    assert Fetched([id], fetch) == [] by { assert [id][1..] == []; }
  }

  /** When every fetch succeeds, the pages are the fetch results one for one. */
  lemma {:induction false} FetchedAllSucceed(ids: seq<string>, fetch: string -> Option<NotionContext>)
    requires forall id :: id in ids ==> fetch(id).Some?
    ensures |Fetched(ids, fetch)| == |ids|
    ensures forall i :: 0 <= i < |ids| ==> Fetched(ids, fetch)[i] == fetch(ids[i]).value
  {
    if ids != [] {
      assert ids[0] in ids;
      FetchedAllSucceed(ids[1..], fetch);
      assert forall i :: 1 <= i < |ids| ==> ids[i] == ids[1..][i - 1];
    }
  }

  /** When every fetch fails while pages are configured, the context is
      empty rather than the no-pages marker. */
  lemma {:induction false} FillAllFailed(pageIdsEnv: Option<string>, fetch: string -> Option<NotionContext>, now: int)
    requires ParsePageIds(pageIdsEnv) != []
    requires forall id :: id in ParsePageIds(pageIdsEnv) ==> fetch(id).None?
    ensures FillCache(pageIdsEnv, fetch, now) == Snapshot("", [], Some(now))
  {
    FetchedAllFail(ParsePageIds(pageIdsEnv), fetch);
  }

  lemma {:induction false} FetchedAllFail(ids: seq<string>, fetch: string -> Option<NotionContext>)
    requires forall id :: id in ids ==> fetch(id).None?
    ensures Fetched(ids, fetch) == []
  {
    if ids != [] {
      assert ids[0] in ids;
      FetchedAllFail(ids[1..], fetch);
    }
  }

  /** Fetched through the Notion fetcher, the pages carry the configured
      ids whose two calls succeeded, in configured order. */
  lemma {:induction false} FetchedPageIds(ids: seq<string>, retrieve: string -> Result<PageMeta>,
                                          toMarkdown: string -> Result<string>, clock: string -> int)
    ensures PageIdsOf(Fetched(ids, NotionFetcher(retrieve, toMarkdown, clock))) ==
      Reachable(ids, retrieve, toMarkdown)
  {
    if ids != [] {
      FetchedPageIds(ids[1..], retrieve, toMarkdown, clock);
      var fetch := NotionFetcher(retrieve, toMarkdown, clock);
      var head := match fetch(ids[0]) case None => [] case Some(p) => [p];
      PageIdsOfAppend(head, Fetched(ids[1..], fetch));
    }
  }

  function PageIdsOf(pages: seq<NotionContext>): seq<string> {
    if pages == [] then [] else [pages[0].pageId] + PageIdsOf(pages[1..])
  }

  lemma {:induction false} PageIdsOfAppend(a: seq<NotionContext>, b: seq<NotionContext>)
    ensures PageIdsOf(a + b) == PageIdsOf(a) + PageIdsOf(b)
  {
    if a == [] {
      assert a + b == b;
    } else {
      assert (a + b)[1..] == a[1..] + b;
      PageIdsOfAppend(a[1..], b);
    }
  }

  /** The configured ids both of whose Notion calls succeed, in order. */
  function Reachable(ids: seq<string>, retrieve: string -> Result<PageMeta>, toMarkdown: string -> Result<string>): seq<string> {
    if ids == [] then []
    else (if retrieve(ids[0]).Ok? && toMarkdown(ids[0]).Ok? then [ids[0]] else []) + Reachable(ids[1..], retrieve, toMarkdown)
  }

  /** Repeated fills over the same configuration and the same fetch
      results give the same pages and a byte-identical context; only the
      fill time differs. */
  lemma FillRepeatable(pageIdsEnv: Option<string>, fetch: string -> Option<NotionContext>, now1: int, now2: int)
    ensures FillCache(pageIdsEnv, fetch, now1).pages == FillCache(pageIdsEnv, fetch, now2).pages
    ensures FillCache(pageIdsEnv, fetch, now1).combinedContext == FillCache(pageIdsEnv, fetch, now2).combinedContext
  {
  }

  /** Consecutive sections are separated by exactly one blank line. */
  lemma CombineContextCons(p: NotionContext, rest: seq<NotionContext>)
    ensures CombineContext([p]) == Section(p)
    ensures rest != [] ==> CombineContext([p] + rest) == Section(p) + "\n\n" + CombineContext(rest)
  {
    assert ([p] + rest)[1..] == rest;
  }

  /** Every kept page's section, holding its title and content, appears
      verbatim in the combined context. */
  lemma SectionInContext(pages: seq<NotionContext>, i: nat)
    requires i < |pages|
    ensures Contains(CombineContext(pages), Section(pages[i]))
  {
    JoinContainsPart(Sections(pages), "\n\n", i);
  }
}
