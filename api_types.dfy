/**
 * The MediaWiki `action=query` API as the clients see it: query parameters,
 * the query URL built from them, and the parts of a decoded JSON answer the
 * core reads.
 */
module ApiTypes {
  import opened Wrappers
  import opened PhpStrings
  import opened PhpValues
  import Assoc

  /** An entry of `images` or `allimages`, with its `title` when it has one. */
  datatype ImageRef = ImageRef(title: Option<string>)

  /** An entry of `query.pages`: its title, its `images` and its `imageinfo`, when present as lists. */
  datatype Page = Page(title: string, images: Option<seq<ImageRef>>, imageInfo: Option<seq<Record>>)

  /** An entry of `query.search`, with its `pageid` when it has one. */
  datatype SearchHit = SearchHit(pageId: Option<int>)

  /**
   * A decoded answer. `pages` is None when `query.pages` is absent or not a
   * list; `search` is None when `query.search` is absent, which a `foreach`
   * treats like an empty list.
   */
  datatype QueryResponse = QueryResponse(
    pages: Option<seq<Page>>,
    search: Option<seq<SearchHit>>,
    allImages: seq<ImageRef>,
    imageCount: int)

  /** Query parameters in the order they are written, as `http_build_query` sends them. */
  type Params = seq<(string, string)>

  /** `https://<domain>/w/api.php?<params>`, kept as its two parts. */
  datatype QueryUrl = QueryUrl(domain: string, params: Params)

  /** The `action=query&format=json` request for `data` against `domain`. */
  function BuildQueryUrl(domain: string, data: Params): QueryUrl {
    QueryUrl(domain, Assoc.Put(Assoc.Put(data, "action", "query"), "format", "json"))
  }

  /**
   * Every built URL asks for `action=query` and `format=json`, whatever the
   * caller passed under those keys; every other parameter is the caller's.
   */
  lemma BuildQueryUrlParams(domain: string, data: Params, k: string)
    ensures BuildQueryUrl(domain, data).domain == domain
    ensures Assoc.Get(BuildQueryUrl(domain, data).params, "action") == Some("query")
    ensures Assoc.Get(BuildQueryUrl(domain, data).params, "format") == Some("json")
    ensures k != "action" && k != "format" ==> Assoc.Get(BuildQueryUrl(domain, data).params, k) == Assoc.Get(data, k)
  {
    var d1 := Assoc.Put(data, "action", "query");
    Assoc.GetPut(data, "action", "query", k);
    Assoc.GetPut(d1, "format", "json", k);
    Assoc.GetPut(d1, "format", "json", "action");
    Assoc.GetPut(data, "action", "query", "action");
    Assoc.GetPut(d1, "format", "json", "format");
  }

  /** Built URLs keep the caller's parameter names distinct and in the caller's order. */
  lemma BuildQueryUrlKeys(domain: string, data: Params)
    requires Assoc.DistinctKeys(data)
    requires !Assoc.HasKey(data, "action") && !Assoc.HasKey(data, "format")
    ensures Assoc.DistinctKeys(BuildQueryUrl(domain, data).params)
    ensures Assoc.Keys(BuildQueryUrl(domain, data).params) == Assoc.Keys(data) + ["action", "format"]
  {
    var d1 := Assoc.Put(data, "action", "query");
    Assoc.PutKeepsKeysDistinct(data, "action", "query");
    assert Assoc.Keys(d1) == Assoc.Keys(data) + ["action"];
    Assoc.HasKeyAppend(data, ("action", "query"), "format");
    Assoc.PutKeepsKeysDistinct(d1, "format", "json");
    assert Assoc.Keys(Assoc.Put(d1, "format", "json")) == (Assoc.Keys(data) + ["action"]) + ["format"];
  }

  /** `http_build_query`: `k=v` pairs joined by `&` (values are plain here, see README). */
  function QueryString(ps: Params): string {
    Implode("&", seq(|ps|, i requires 0 <= i < |ps| => ps[i].0 + "=" + ps[i].1))
  }

  /** The URL text the HTTP client is sent. */
  function Render(u: QueryUrl): string {
    "https://" + u.domain + "/w/api.php?" + QueryString(u.params)
  }
}

/**
 * Executing a query: an optional cache in front of the remote API. The
 * remote API is a function of the URL and of the number of requests sent
 * before, so that answers may change over time.
 */
module QueryExecution {
  import opened ApiTypes

  type Server = (QueryUrl, nat) -> QueryResponse

  /** What a query can observe and change: the cache and the requests sent so far. */
  datatype World = World(cache: map<QueryUrl, QueryResponse>, sent: seq<QueryUrl>)

  datatype Answer = Answer(response: QueryResponse, world: World)

  /**
   * `executeQuery` on a built URL: with the cache on, a stored answer is
   * returned without a request; otherwise one request is sent and, with the
   * cache on, its answer stored under the URL.
   */
  function Ask(useCache: bool, server: Server, w: World, url: QueryUrl): Answer {
    if useCache && url in w.cache then Answer(w.cache[url], w)
    else
      var r := server(url, |w.sent|);
      Answer(r, World(if useCache then w.cache[url := r] else w.cache, w.sent + [url]))
  }

  /** Where and how a client sends its queries. */
  datatype Endpoint = Endpoint(domain: string, useCache: bool, server: Server)

  /** `executeQuery($data)` of a client bound to the endpoint. */
  function Query(e: Endpoint, w: World, data: Params): Answer {
    Ask(e.useCache, e.server, w, BuildQueryUrl(e.domain, data))
  }

  /** A sequence of queries, each seeing the world the previous one left. */
  function AskAll(useCache: bool, server: Server, w: World, urls: seq<QueryUrl>): (r: (seq<QueryResponse>, World))
    ensures |r.0| == |urls|
    decreases |urls|
  {
    if urls == [] then ([], w)
    else
      var a := Ask(useCache, server, w, urls[0]);
      var rest := AskAll(useCache, server, a.world, urls[1..]);
      ([a.response] + rest.0, rest.1)
  }

  /** A cached URL is answered from the cache and sends nothing. */
  lemma CacheHit(server: Server, w: World, url: QueryUrl)
    requires url in w.cache
    ensures Ask(true, server, w, url) == Answer(w.cache[url], w)
  {
  }

  /** With the cache off the cache is left alone and exactly one request goes out. */
  lemma CacheOffAlwaysSends(server: Server, w: World, url: QueryUrl)
    ensures Ask(false, server, w, url).world == World(w.cache, w.sent + [url])
    ensures Ask(false, server, w, url).response == server(url, |w.sent|)
  {
  }

  /** With the cache on, what is stored stays stored, and every later ask of it gets it. */
  lemma {:induction false} CacheEntriesPersist(server: Server, w: World, urls: seq<QueryUrl>, u: QueryUrl)
    requires u in w.cache
    ensures var r := AskAll(true, server, w, urls);
      && u in r.1.cache && r.1.cache[u] == w.cache[u]
      && forall k :: 0 <= k < |urls| && urls[k] == u ==> r.0[k] == w.cache[u]
    decreases |urls|
  {
    if urls != [] {
      var a := Ask(true, server, w, urls[0]);
      CacheEntriesPersist(server, a.world, urls[1..], u);
      var rest := AskAll(true, server, a.world, urls[1..]);
      assert AskAll(true, server, w, urls).0 == [a.response] + rest.0;
      forall k | 0 < k < |urls| && urls[k] == u
        ensures AskAll(true, server, w, urls).0[k] == w.cache[u]
      {
        assert urls[1..][k - 1] == u;
      }
    }
  }

  /**
   * With the cache on, one URL asked twice in any sequence of queries gets
   * the same answer both times, even if the remote answer has changed.
   */
  lemma {:induction false} CachedAnswersAreStable(server: Server, w: World, urls: seq<QueryUrl>, i: nat, j: nat)
    requires i < j < |urls| && urls[i] == urls[j]
    ensures AskAll(true, server, w, urls).0[i] == AskAll(true, server, w, urls).0[j]
    decreases i
  {
    var a := Ask(true, server, w, urls[0]);
    var rest := AskAll(true, server, a.world, urls[1..]);
    assert AskAll(true, server, w, urls).0 == [a.response] + rest.0;
    if i == 0 {
      assert urls[0] in a.world.cache && a.world.cache[urls[0]] == a.response;
      CacheEntriesPersist(server, a.world, urls[1..], urls[0]);
      assert urls[1..][j - 1] == urls[0];
    } else {
      CachedAnswersAreStable(server, a.world, urls[1..], i - 1, j - 1);
    }
  }

  /** The cache the client passes queries through. */
  class QueryResultCache {
    var entries: map<QueryUrl, QueryResponse>

    constructor(entries: map<QueryUrl, QueryResponse>)
      ensures this.entries == entries
    {
      this.entries := entries;
    }
  }

  /** The HTTP client: it remembers what it has sent. */
  class Network {
    const server: Server
    var sent: seq<QueryUrl>

    constructor(server: Server)
      ensures this.server == server && sent == []
    {
      this.server := server;
      sent := [];
    }

    /** One GET request of the URL; the decoded body comes back. */
    method Get(url: QueryUrl) returns (r: QueryResponse)
      modifies this`sent
      ensures r == server(url, |old(sent)|)
      ensures sent == old(sent) + [url]
    {
      r := server(url, |sent|);
      sent := sent + [url];
    }
  }
}
