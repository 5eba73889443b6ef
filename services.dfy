/**
 * The search front end of the research pipeline: `SearchService`, which picks
 * a backend once, sets its scraping manager up lazily and reshapes every
 * answer into the Firecrawl response format `{"data": [...]}`, and the
 * normalisation of the Firecrawl SDK's answers into that format.
 */
module Services {
  import opened Wrappers
  import opened JsonValues

  /** A search response: the top-level dict, whose `"data"` entry holds the hits. */
  type SearchResponse = map<string, Json>

  /** `{"data": []}`, what every failure inside a search turns into. */
  const EmptyData: SearchResponse := map["data" := JArr([])]

  /** `SearchServiceType.FIRECRAWL.value`. */
  const FirecrawlType := "firecrawl"

  /** The backend used when neither the caller nor `DEFAULT_SCRAPER` names one. */
  const DefaultType := "playwright_ddgs"

  // ---------------------------------------------------------------------
  // The manager path: search hits plus scraped page text
  // ---------------------------------------------------------------------

  /** One result of `manager.search`. */
  datatype SearchHit = SearchHit(url: string, title: string)

  /**
   * What `manager.search_and_scrape` does: raise, or return a dict whose
   * `"scraped_contents"` entry (None when the key is missing) maps a URL to
   * the text scraped from it.
   */
  datatype ScrapeReply = ScrapeRaised | Scraped(scrapedContents: Option<map<string, string>>)

  /** The item `SearchService.search` builds for one hit, from the page texts scraped so far. */
  function HitItem(hit: SearchHit, contents: map<string, string>): (item: Json)
    ensures item.JObj? && item.fields.Keys == {"url", "title", "content"}
    ensures item.fields["url"] == JStr(hit.url) && item.fields["title"] == JStr(hit.title)
    ensures hit.url in contents ==> item.fields["content"] == JStr(contents[hit.url])
    ensures hit.url !in contents ==> item.fields["content"] == JStr("")
  {
    var content := if hit.url in contents then contents[hit.url] else "";
    JObj(map["url" := JStr(hit.url), "title" := JStr(hit.title), "content" := JStr(content)])
  }

  /** The formatting loop of `SearchService.search`: one item per hit, in the order of the hits. */
  method FormatHits(hits: seq<SearchHit>, contents: map<string, string>) returns (data: seq<Json>)
    ensures |data| == |hits|
    ensures forall i :: 0 <= i < |hits| ==> data[i] == HitItem(hits[i], contents)
  {
    data := [];
    for i := 0 to |hits|
      invariant |data| == i
      invariant forall j :: 0 <= j < i ==> data[j] == HitItem(hits[j], contents)
    {
      data := data + [HitItem(hits[i], contents)];
    }
  }

  /**
   * What the manager path of `SearchService.search` returns, given what
   * `manager.search` returned (None: it raised) and what
   * `manager.search_and_scrape` did. A raise, and a scrape result without
   * `"scraped_contents"` (a KeyError), are caught and give `{"data": []}`.
   */
  function ManagerResponse(hits: Option<seq<SearchHit>>, scrape: ScrapeReply): (r: SearchResponse)
    ensures (hits.None? || scrape.ScrapeRaised? || scrape.scrapedContents.None?) ==> r == EmptyData
    ensures r.Keys == {"data"} && r["data"].JArr?
    ensures hits.Some? && scrape.Scraped? && scrape.scrapedContents.Some? ==>
              |r["data"].items| == |hits.value| &&
              forall i :: 0 <= i < |hits.value| ==>
                r["data"].items[i] == HitItem(hits.value[i], scrape.scrapedContents.value)
  {
    if hits.None? || scrape.ScrapeRaised? || scrape.scrapedContents.None? then EmptyData
    else
      var hs := hits.value;
      var contents := scrape.scrapedContents.value;
      map["data" := JArr(seq(|hs|, i requires 0 <= i < |hs| => HitItem(hs[i], contents)))]
  }

  // ---------------------------------------------------------------------
  // Firecrawl: normalising the SDK's answers
  // ---------------------------------------------------------------------

  /** An element of a list the SDK returns: a dict, or an object read through its attributes. */
  datatype SdkItem = ItemDict(fields: map<string, Json>) | ItemObject(attrs: map<string, Json>)

  /** What `app.search(query=query)` does: raise, or return a dict, a list, or something else. */
  datatype SdkReply = SdkRaised | ReplyDict(fields: map<string, Json>) | ReplyList(items: seq<SdkItem>) | ReplyOther

  /** Python's `a or b`: `a` when it is truthy, else `b`. */
  function Or(a: Json, b: Json): (r: Json)
    ensures Truthy(a) ==> r == a
    ensures !Truthy(a) ==> r == b
  {
    if Truthy(a) then a else b
  }

  /**
   * The dict built for an object element: its `url`; its `markdown`, or
   * failing that its `content`; its `title`, or failing that the `title` in
   * its `metadata`. Each missing attribute reads as `""`. When the title is
   * not truthy and `metadata` is present but not a dict, `.get` raises
   * (None here).
   */
  function ObjectItem(attrs: map<string, Json>): (r: Option<Json>)
    ensures r.None? <==> !Truthy(Get(attrs, "title", JStr(""))) && !Get(attrs, "metadata", JObj(map[])).JObj?
    ensures r.Some? ==> r.value.JObj? && r.value.fields.Keys == {"url", "content", "title"}
    ensures r.Some? ==> r.value.fields["url"] == Get(attrs, "url", JStr(""))
    ensures r.Some? ==> r.value.fields["content"] == Or(Get(attrs, "markdown", JStr("")), Get(attrs, "content", JStr("")))
    ensures r.Some? && Truthy(Get(attrs, "title", JStr(""))) ==> r.value.fields["title"] == attrs["title"]
    ensures r.Some? && !Truthy(Get(attrs, "title", JStr(""))) ==>
              r.value.fields["title"] == Get(Get(attrs, "metadata", JObj(map[])).fields, "title", JStr(""))
  {
    var url := Get(attrs, "url", JStr(""));
    var content := Or(Get(attrs, "markdown", JStr("")), Get(attrs, "content", JStr("")));
    var title := Get(attrs, "title", JStr(""));
    if Truthy(title) then
      Some(JObj(map["url" := url, "content" := content, "title" := title]))
    else
      match Get(attrs, "metadata", JObj(map[]))
      case JObj(meta) =>
        Some(JObj(map["url" := url, "content" := content, "title" := Get(meta, "title", JStr(""))]))
      case _ => None
  }

  /** The normalised element: a dict as it is, an object through `ObjectItem`. */
  function NormalItem(item: SdkItem): (r: Option<Json>)
    ensures item.ItemDict? ==> r == Some(JObj(item.fields))
    ensures item.ItemObject? ==> r == ObjectItem(item.attrs)
  {
    match item
    case ItemDict(fields) => Some(JObj(fields))
    case ItemObject(attrs) => ObjectItem(attrs)
  }

  /** Every element of the list normalises without raising. */
  predicate AllNormal(items: seq<SdkItem>) {
    forall i :: 0 <= i < |items| ==> NormalItem(items[i]).Some?
  }

  /**
   * What `Firecrawl.search` returns for the SDK reply `reply`. A dict with
   * `"data"` is passed through unchanged; a dict with `"success"` and no
   * `"data"` gives empty data; a list is normalised element by element; any
   * other reply, any raise from the SDK and any raise while normalising give
   * `{"data": []}`.
   */
  function FirecrawlResponse(reply: SdkReply): (r: SearchResponse)
    ensures reply.ReplyDict? && "data" in reply.fields ==> r == reply.fields
    ensures reply.ReplyDict? && "data" !in reply.fields && "success" in reply.fields ==> r == EmptyData
    ensures reply.ReplyDict? && "data" !in reply.fields && "success" !in reply.fields ==> r == EmptyData
    ensures reply.SdkRaised? || reply.ReplyOther? ==> r == EmptyData
    ensures reply.ReplyList? && !AllNormal(reply.items) ==> r == EmptyData
    ensures reply.ReplyList? && AllNormal(reply.items) ==>
              r.Keys == {"data"} && r["data"].JArr? && |r["data"].items| == |reply.items| &&
              forall i :: 0 <= i < |reply.items| ==> Some(r["data"].items[i]) == NormalItem(reply.items[i])
  {
    match reply
    case SdkRaised => EmptyData
    case ReplyOther => EmptyData
    case ReplyDict(fields) =>
      if "data" in fields then fields
      else if "success" in fields then map["data" := Get(fields, "data", JArr([]))]
      else EmptyData
    case ReplyList(items) =>
      if AllNormal(items) then
        map["data" := JArr(seq(|items|, i requires 0 <= i < |items| => NormalItem(items[i]).value))]
      else EmptyData
  }

  /**
   * `Firecrawl.search(query, limit=limit)`. The SDK is asked with the query
   * alone, so `limit` has no effect on the answer.
   */
  method FirecrawlSearch(query: string, limit: int, sdk: string -> SdkReply) returns (r: SearchResponse)
    ensures r == FirecrawlResponse(sdk(query))
  {
    var reply := sdk(query);
    match reply {
      case SdkRaised =>
        return EmptyData;
      case ReplyOther =>
        return EmptyData;
      case ReplyDict(fields) =>
        if "data" in fields {
          return fields;
        } else if "success" in fields {
          return map["data" := Get(fields, "data", JArr([]))];
        }
        return EmptyData;
      case ReplyList(items) =>
        var formatted: seq<Json> := [];
        for i := 0 to |items|
          invariant |formatted| == i
          invariant forall j :: 0 <= j < i ==> NormalItem(items[j]) == Some(formatted[j])
        {
          match NormalItem(items[i]) {
            case None =>
              return EmptyData;
            case Some(item) =>
              formatted := formatted + [item];
          }
        }
        assert AllNormal(items);
        assert formatted == seq(|items|, i requires 0 <= i < |items| => NormalItem(items[i]).value);
        return map["data" := JArr(formatted)];
    }
  }

  /** A list made only of dicts comes back as those same dicts, in order. */
  lemma {:induction false} FirecrawlKeepsDicts(items: seq<SdkItem>)
    requires forall i :: 0 <= i < |items| ==> items[i].ItemDict?
    ensures var r := FirecrawlResponse(ReplyList(items));
            r["data"] == JArr(seq(|items|, i requires 0 <= i < |items| => JObj(items[i].fields)))
  {
    var r := FirecrawlResponse(ReplyList(items));
    assert AllNormal(items);
    var want := seq(|items|, i requires 0 <= i < |items| => JObj(items[i].fields));
    assert |r["data"].items| == |want|;
    forall i | 0 <= i < |items|
      ensures r["data"].items[i] == want[i]
    {
      assert Some(r["data"].items[i]) == NormalItem(items[i]);
    }
  }

  // ---------------------------------------------------------------------
  // SearchService
  // ---------------------------------------------------------------------

  /** A call the service makes on its scraping manager's lifecycle. */
  datatype Lifecycle = Setup | Teardown

  /**
   * `SearchService`: the backend is fixed at construction; with the manager
   * backend, `initialized` records whether `manager.setup()` has completed
   * since the last teardown. `log` records the lifecycle calls made on the
   * manager, in order.
   */
  class SearchService {
    const serviceType: string
    /** The Firecrawl backend is in use (and then there is no manager). */
    const usesFirecrawl: bool
    var initialized: bool
    ghost var log: seq<Lifecycle>

    /**
     * `SearchService(service_type)`. `defaultScraper` is the value of the
     * `DEFAULT_SCRAPER` environment variable, None when it is unset; it only
     * matters when no service type is passed.
     */
    constructor (serviceType: Option<string>, defaultScraper: Option<string>)
      ensures this.serviceType == (if serviceType.Some? then serviceType.value else defaultScraper.GetOr(DefaultType))
      ensures usesFirecrawl <==> this.serviceType == FirecrawlType
      ensures !initialized && log == []
    {
      var t := if serviceType.Some? then serviceType.value else defaultScraper.GetOr(DefaultType);
      this.serviceType := t;
      usesFirecrawl := t == FirecrawlType;
      initialized := false;
      log := [];
    }

    /**
     * `ensure_initialized()`: sets the manager up unless there is none or it
     * is set up already. `setupRaises` says whether `manager.setup()` raises;
     * then the exception propagates (`raised`) and the flag stays clear.
     */
    method EnsureInitialized(setupRaises: bool) returns (raised: bool)
      modifies this
      ensures old(!usesFirecrawl && !initialized) ==> log == old(log) + [Setup]
      ensures old(usesFirecrawl || initialized) ==> log == old(log)
      ensures raised <==> old(!usesFirecrawl && !initialized) && setupRaises
      ensures initialized == (old(initialized) || (!usesFirecrawl && !setupRaises))
    {
      raised := false;
      if !usesFirecrawl && !initialized {
        log := log + [Setup];
        if setupRaises {
          raised := true;
          return;
        }
        initialized := true;
      }
    }

    /**
     * `cleanup()`: tears the manager down only when it is set up.
     * `teardownRaises` says whether `manager.teardown()` raises; then the
     * exception propagates and the flag stays set.
     */
    method Cleanup(teardownRaises: bool) returns (raised: bool)
      modifies this
      ensures old(!usesFirecrawl && initialized) ==> log == old(log) + [Teardown]
      ensures old(usesFirecrawl || !initialized) ==> log == old(log)
      ensures raised <==> old(!usesFirecrawl && initialized) && teardownRaises
      ensures initialized == (old(initialized) && (usesFirecrawl || teardownRaises))
    {
      raised := false;
      if !usesFirecrawl && initialized {
        log := log + [Teardown];
        if teardownRaises {
          raised := true;
          return;
        }
        initialized := false;
      }
    }

    /**
     * `search(query, limit)`. The service first makes sure it is set up; a
     * raise from `manager.setup()` propagates (None). Everything after that
     * is caught. On the Firecrawl backend the answer is `Firecrawl.search`'s;
     * on the manager backend it is built from `manager.search` (`hits`, None
     * when it raises) and `manager.search_and_scrape` (`scrape`), both asked
     * for `limit` results.
     */
    method Search(query: string, limit: int, setupRaises: bool, sdk: string -> SdkReply,
                  hits: (string, int) -> Option<seq<SearchHit>>, scrape: (string, int) -> ScrapeReply)
      returns (r: Option<SearchResponse>)
      modifies this
      ensures r.None? <==> old(!usesFirecrawl && !initialized) && setupRaises
      ensures old(!usesFirecrawl && !initialized) ==> log == old(log) + [Setup]
      ensures old(usesFirecrawl || initialized) ==> log == old(log)
      ensures initialized == (old(initialized) || (!usesFirecrawl && !setupRaises))
      ensures r.Some? && usesFirecrawl ==> r.value == FirecrawlResponse(sdk(query))
      ensures r.Some? && !usesFirecrawl ==> r.value == ManagerResponse(hits(query, limit), scrape(query, limit))
    {
      var raised := EnsureInitialized(setupRaises);
      if raised {
        return None;
      }
      if usesFirecrawl {
        var response := FirecrawlSearch(query, limit, sdk);
        return Some(response);
      }
      var found := hits(query, limit);
      if found.None? {
        return Some(EmptyData);
      }
      var scraped := scrape(query, limit);
      if scraped.ScrapeRaised? || scraped.scrapedContents.None? {
        return Some(EmptyData);
      }
      var data := FormatHits(found.value, scraped.scrapedContents.value);
      assert data == ManagerResponse(found, scraped)["data"].items;
      return Some(map["data" := JArr(data)]);
    }
  }

  /**
   * Two searches on a fresh manager-backed service set the manager up once;
   * a cleanup then tears it down once, and the next search sets it up again.
   */
  method SetupOnce(query: string, hits: (string, int) -> Option<seq<SearchHit>>, scrape: (string, int) -> ScrapeReply,
                   sdk: string -> SdkReply)
  {
    var s := new SearchService(None, None);
    assert s.serviceType == DefaultType && !s.usesFirecrawl;
    var r1 := s.Search(query, 5, false, sdk, hits, scrape);
    var r2 := s.Search(query, 5, false, sdk, hits, scrape);
    assert s.log == [Setup] && s.initialized;
    assert r1 == r2 == Some(ManagerResponse(hits(query, 5), scrape(query, 5)));
    var raised := s.Cleanup(false);
    assert s.log == [Setup, Teardown] && !s.initialized && !raised;
    var r3 := s.Search(query, 5, false, sdk, hits, scrape);
    assert s.log == [Setup, Teardown, Setup];
  }

  /** A Firecrawl-backed service never touches a manager. */
  method FirecrawlNeverSetsUp(query: string, sdk: string -> SdkReply,
                              hits: (string, int) -> Option<seq<SearchHit>>, scrape: (string, int) -> ScrapeReply)
  {
    var s := new SearchService(Some(FirecrawlType), None);
    var r := s.Search(query, 5, true, sdk, hits, scrape);
    var raised := s.Cleanup(true);
    assert s.log == [] && !s.initialized && !raised;
    assert r == Some(FirecrawlResponse(sdk(query)));
  }
}
