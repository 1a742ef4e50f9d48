/**
 * The two search strategies: a direct title search that lists the images
 * of the first matching page, and a full-text article search that lists
 * the images of all matching articles. Both filter out excluded images,
 * report the filtered count as the total and return one page of titles.
 */
module SearchStrategies {
  import opened Wrappers
  import opened Failures
  import opened PhpStrings
  import opened ApiTypes
  import opened QueryExecution
  import opened TitlePipeline
  import opened Dto
  import Glob
  import MediaWikiApi
  import opened AssetSource

  /** The result limit of every strategy query. */
  const TotalResultLimit: int := 500

  const ItemsPerPage: nat := 30

  /** The article limit when `searchStrategyOptions.articleLimit` is not set. */
  const DefaultArticleLimit: int := 10

  // ---------------------------------------------------------------------
  // The exclusion filter
  // ---------------------------------------------------------------------

  /**
   * The `excludedIdentifierPatterns` option; when it is not set the loop
   * over it runs over nothing and no image is excluded.
   */
  function ExcludedPatterns(options: Options): seq<string> {
    options.excludedIdentifierPatterns.GetOr([])
  }

  /** The filter callback: false as soon as one pattern matches, true when none does. */
  method IsKept(image: string, patterns: seq<string>) returns (kept: bool)
    ensures kept <==> !Excluded(image, patterns)
  {
    for i := 0 to |patterns|
      invariant Excluded(image, patterns) <==> Excluded(image, patterns[i..])
    {
      if Glob.Matches(patterns[i], image) {
        return false;
      }
      assert patterns[i..][1..] == patterns[i + 1..];
    }
    return true;
  }

  /** `filterExcludedImages(&$images)`: the caller's list is replaced by its filtered version. */
  method FilterExcludedImages(images: seq<string>, patterns: seq<string>) returns (filtered: seq<string>)
    ensures filtered == Filtered(images, patterns)
  {
    filtered := [];
    for i := 0 to |images|
      invariant filtered == Filtered(images[..i], patterns)
    {
      var kept := IsKept(images[i], patterns);
      FilteredSnoc(images[..i], images[i], patterns);
      assert images[..i + 1] == images[..i] + [images[i]];
      if kept {
        filtered := filtered + [images[i]];
      }
    }
    assert images[..|images|] == images;
  }

  /** The titles and the total a strategy reports. */
  datatype Outcome = Outcome(titles: seq<string>, total: int)

  /** What a search leaves: its outcome or the error it threw, and the world after the queries it sent. */
  datatype Searched = Searched(outcome: Result<Outcome, Error>, world: World)

  /** A listing that always succeeds, as a search's result. */
  function Listed(l: MediaWikiApi.Listing): (s: Searched)
    ensures s.outcome == Success(Outcome(l.titles, l.total)) && s.world == l.world
  {
    Searched(Success(Outcome(l.titles, l.total)), l.world)
  }

  /** The titles and the total a result object holds, or the error in its place. */
  function Reported(r: Result<ImageSearchResult, Error>): Result<Outcome, Error>
    reads if r.Success? then {r.value} else {}
  {
    if r.Success? then Success(Outcome(r.value.imageTitles, r.value.totalResults)) else Failure(r.error)
  }

  /** Filter, report the filtered count, and return the page at the offset with underscores. */
  function Paged(images: seq<string>, patterns: seq<string>, offset: nat): Outcome {
    var filtered := Filtered(images, patterns);
    Outcome(Normalised(Slice(filtered, offset, ItemsPerPage)), |filtered|)
  }

  /**
   * The total is the number of images no pattern excludes; the titles are
   * those images from the offset on, at most 30, underscored, and none when
   * the offset is at or past the total.
   */
  lemma PagedOutcome(images: seq<string>, patterns: seq<string>, offset: nat)
    ensures var r, f := Paged(images, patterns, offset), Filtered(images, patterns);
      && r.total == |f| <= |images|
      && |r.titles| <= ItemsPerPage
      && |r.titles| == (if offset >= |f| then 0 else Min(ItemsPerPage, |f| - offset))
      && (offset >= r.total ==> r.titles == [])
      && (forall k :: 0 <= k < |r.titles| ==> offset + k < |f| && r.titles[k] == ReplaceSpaces(f[offset + k]))
  {
    PageTitlesAt(images, patterns, offset, ItemsPerPage);
  }

  /** The tail of `buildImageSearchResult`: filter, add the page's titles, set the total. */
  method PageResult(images: seq<string>, patterns: seq<string>, offset: nat) returns (r: ImageSearchResult)
    ensures fresh(r) && Outcome(r.imageTitles, r.totalResults) == Paged(images, patterns, offset)
  {
    r := new ImageSearchResult.Empty();
    var allImages := FilterExcludedImages(images, patterns);
    var imagesToExpand := Slice(allImages, offset, ItemsPerPage);
    for i := 0 to |imagesToExpand|
      invariant r.imageTitles == Normalised(imagesToExpand[..i]) && r.totalResults == 0
    {
      assert Normalised(imagesToExpand[..i + 1]) == Normalised(imagesToExpand[..i]) + [ReplaceSpaces(imagesToExpand[i])];
      r.AddImageTitle(ReplaceSpaces(imagesToExpand[i]));
    }
    assert imagesToExpand[..|imagesToExpand|] == imagesToExpand;
    r.SetTotalResults(|allImages|);
  }

  // ---------------------------------------------------------------------
  // Direct image search
  // ---------------------------------------------------------------------

  /** The images of the page titled by the term. */
  function DirectSearchParams(term: string): Params {
    [("titles", term), ("prop", "images"), ("imlimit", IntToString(TotalResultLimit))]
  }

  /** The `images` entries of the first page; none when `query.pages` is not a list, is empty, or its first page has none. */
  function FirstPageRefs(pages: Option<seq<Page>>): Option<seq<ImageRef>> {
    if pages.None? || pages.value == [] || pages.value[0].images.None? then None
    else Some(pages.value[0].images.value)
  }

  /** The entries' titles in order, a missing title read as '' (what `str_replace` makes of null). */
  function TitlesOrEmpty(images: seq<ImageRef>): (r: seq<string>)
    ensures |r| == |images|
    ensures forall k :: 0 <= k < |images| ==> r[k] == if images[k].title.Some? then images[k].title.value else ""
  {
    seq(|images|, k requires 0 <= k < |images| => images[k].title.GetOr(""))
  }

  /** Some entry has no `title`, so the collected list holds a null. */
  predicate HasUntitled(images: seq<ImageRef>) {
    exists k :: 0 <= k < |images| && images[k].title.None?
  }

  /**
   * A null title meets `fnmatch`: the exclusion callback is declared under
   * strict typing, so the first pattern it tries on the null throws.
   */
  predicate UntitledUnderPatterns(pages: Option<seq<Page>>, patterns: seq<string>) {
    patterns != [] && FirstPageRefs(pages).Some? && HasUntitled(FirstPageRefs(pages).value)
  }

  /**
   * What the direct strategy reports for a response: nothing and 0 without
   * images; a `TypeError` when a pattern meets an untitled image; otherwise
   * the page of the first page's titles.
   */
  function DirectOutcome(pages: Option<seq<Page>>, patterns: seq<string>, offset: nat): (r: Result<Outcome, Error>)
    ensures FirstPageRefs(pages).None? ==> r == Success(Outcome([], 0))
    ensures r.Failure? <==> UntitledUnderPatterns(pages, patterns)
    ensures r.Failure? ==> r.error == TypeError
    ensures r.Success? && FirstPageRefs(pages).Some? ==> r.value == Paged(TitlesOrEmpty(FirstPageRefs(pages).value), patterns, offset)
  {
    match FirstPageRefs(pages)
    case None => Success(Outcome([], 0))
    case Some(images) =>
      if patterns != [] && HasUntitled(images) then Failure(TypeError)
      else Success(Paged(TitlesOrEmpty(images), patterns, offset))
  }

  /** Only the first page counts: whatever follows it changes nothing. */
  lemma FirstPageOnly(first: Page, rest: seq<Page>, patterns: seq<string>, offset: nat)
    ensures DirectOutcome(Some([first] + rest), patterns, offset) == DirectOutcome(Some([first]), patterns, offset)
  {
  }

  /**
   * Without patterns nothing reaches `fnmatch`: the search succeeds, every
   * image of the first page counts, and an untitled one is listed as ''.
   */
  lemma DirectOutcomeWithoutPatterns(pages: Option<seq<Page>>, offset: nat)
    requires FirstPageRefs(pages).Some?
    ensures var r, images := DirectOutcome(pages, [], offset), FirstPageRefs(pages).value;
      && r.Success? && r.value.total == |images|
      && (forall k :: 0 <= k < |r.value.titles| ==>
            offset + k < |images| && r.value.titles[k] == ReplaceSpaces(images[offset + k].title.GetOr("")))
  {
    var images := FirstPageRefs(pages).value;
    PagedOutcome(TitlesOrEmpty(images), [], offset);
    FilteredWithoutPatterns(TitlesOrEmpty(images));
  }

  /** `search($term, $offset)` of the direct strategy: one query, then the outcome of its answer. */
  function DirectSearchModel(e: Endpoint, patterns: seq<string>, w: World, term: string, offset: nat): Searched {
    var a := Query(e, w, DirectSearchParams(term));
    Searched(DirectOutcome(a.response.pages, patterns, offset), a.world)
  }

  class DirectImageSearchStrategy {
    const assetSource: MediaWikiAssetSource
    const mediaWikiClient: MediaWikiApi.MediaWikiClient

    /** Bound to the source, with the source's client. */
    constructor(assetSource: MediaWikiAssetSource)
      requires assetSource.Valid()
      modifies assetSource`mediaWikiClient
      ensures this.assetSource == assetSource && assetSource.Valid()
      ensures assetSource.mediaWikiClient == Some(mediaWikiClient) && assetSource.IsOwnClient(mediaWikiClient)
      ensures old(assetSource.mediaWikiClient).Some? ==> mediaWikiClient == old(assetSource.mediaWikiClient).value
    {
      var client := assetSource.GetMediaWikiClient();
      this.assetSource := assetSource;
      this.mediaWikiClient := client;
    }

    method Search(term: string, offset: nat) returns (r: Result<ImageSearchResult, Error>)
      modifies mediaWikiClient.queryResultCache, mediaWikiClient.network
      ensures r.Success? ==> fresh(r.value)
      ensures DirectSearchModel(mediaWikiClient.Endpoint(), ExcludedPatterns(assetSource.assetSourceOptions), old(mediaWikiClient.World()), term, offset)
        == Searched(Reported(r), mediaWikiClient.World())
    {
      var searchResultArray := mediaWikiClient.ExecuteQuery(DirectSearchParams(term));
      r := BuildImageSearchResult(searchResultArray, offset);
    }

    method BuildImageSearchResult(searchResult: QueryResponse, offset: nat) returns (r: Result<ImageSearchResult, Error>)
      ensures r.Success? ==> fresh(r.value)
      ensures Reported(r) == DirectOutcome(searchResult.pages, ExcludedPatterns(assetSource.assetSourceOptions), offset)
    {
      var pages := searchResult.pages;
      if pages.None? || pages.value == [] || pages.value[0].images.None? {
        var empty := new ImageSearchResult.Empty();
        return Success(empty);
      }
      var images := pages.value[0].images.value;
      var allImages: seq<string> := [];
      var untitled := false;
      for i := 0 to |images|
        invariant allImages == TitlesOrEmpty(images[..i])
        invariant untitled <==> HasUntitled(images[..i])
      {
        assert images[..i + 1][..i] == images[..i];
        allImages := allImages + [images[i].title.GetOr("")];
        untitled := untitled || images[i].title.None?;
      }
      assert images[..|images|] == images;
      var patterns := ExcludedPatterns(assetSource.assetSourceOptions);
      if patterns != [] && untitled {
        return Failure(TypeError);
      }
      var page := PageResult(allImages, patterns, offset);
      r := Success(page);
    }
  }

  // ---------------------------------------------------------------------
  // Article search
  // ---------------------------------------------------------------------

  /** `searchStrategyOptions.articleLimit ?? 10`. */
  function ArticleLimit(options: Options): (limit: int)
    ensures options.articleLimit.None? ==> limit == DefaultArticleLimit
    ensures options.articleLimit.Some? ==> limit == options.articleLimit.value
  {
    options.articleLimit.GetOr(DefaultArticleLimit)
  }

  /** The full-text search for articles. */
  function ArticleSearchParams(term: string, limit: int): Params {
    [("list", "search"), ("srsearch", term), ("srlimit", IntToString(limit))]
  }

  /** The images of the pages with the given ids, joined by `|`. */
  function ArticleImagesParams(pageIds: seq<int>): Params {
    [("prop", "images"), ("pageids", Implode("|", seq(|pageIds|, k requires 0 <= k < |pageIds| => IntToString(pageIds[k])))),
     ("imlimit", IntToString(TotalResultLimit))]
  }

  /** The `pageid` of every hit that has one, in hit order. */
  function PageIds(hits: seq<SearchHit>): seq<int>
    decreases |hits|
  {
    if hits == [] then []
    else
      var last := hits[|hits| - 1];
      PageIds(hits[..|hits| - 1]) + (if last.pageId.Some? then [last.pageId.value] else [])
  }

  /** A page id comes out exactly when some hit carries it, and there are at most as many ids as hits. */
  lemma {:induction false} PageIdsMembership(hits: seq<SearchHit>, id: int)
    ensures |PageIds(hits)| <= |hits|
    ensures id in PageIds(hits) <==> exists i :: 0 <= i < |hits| && hits[i].pageId == Some(id)
    decreases |hits|
  {
    if hits != [] {
      var n := |hits| - 1;
      PageIdsMembership(hits[..n], id);
      if exists i :: 0 <= i < |hits| && hits[i].pageId == Some(id) {
        var i :| 0 <= i < |hits| && hits[i].pageId == Some(id);
        if i < n {
          assert hits[..n][i].pageId == Some(id);
        }
      }
      if exists i :: 0 <= i < n && hits[..n][i].pageId == Some(id) {
        var i :| 0 <= i < n && hits[..n][i].pageId == Some(id);
        assert hits[i].pageId == Some(id);
      }
    }
  }

  /** The titles of the images of one page that have one; none when `images` is not a list. */
  function PageImageTitles(p: Page): seq<string> {
    if p.images.None? then [] else PresentTitles(p.images.value)
  }

  function PresentTitles(images: seq<ImageRef>): seq<string>
    decreases |images|
  {
    if images == [] then []
    else
      var last := images[|images| - 1];
      PresentTitles(images[..|images| - 1]) + (if last.title.Some? then [last.title.value] else [])
  }

  /** The image titles of all pages, page after page. */
  function ArticleImageTitles(pages: seq<Page>): seq<string>
    decreases |pages|
  {
    if pages == [] then [] else ArticleImageTitles(pages[..|pages| - 1]) + PageImageTitles(pages[|pages| - 1])
  }

  /** A title is listed exactly when some image that has it is listed by one of the page's images. */
  lemma {:induction false} PresentTitlesMembership(images: seq<ImageRef>, t: string)
    ensures t in PresentTitles(images) <==> exists j :: 0 <= j < |images| && images[j].title == Some(t)
    decreases |images|
  {
    if images != [] {
      var n := |images| - 1;
      PresentTitlesMembership(images[..n], t);
      if exists j :: 0 <= j < |images| && images[j].title == Some(t) {
        var j :| 0 <= j < |images| && images[j].title == Some(t);
        if j < n {
          assert images[..n][j].title == Some(t);
        }
      }
      if exists j :: 0 <= j < n && images[..n][j].title == Some(t) {
        var j :| 0 <= j < n && images[..n][j].title == Some(t);
        assert images[j].title == Some(t);
      }
    }
  }

  /** A page has an image with the title in its `images` list. */
  predicate HasImageTitled(p: Page, t: string) {
    p.images.Some? && exists j :: 0 <= j < |p.images.value| && p.images.value[j].title == Some(t)
  }

  /** A title is collected exactly when some page lists an image with that title. */
  lemma {:induction false} ArticleImageTitlesMembership(pages: seq<Page>, t: string)
    ensures t in ArticleImageTitles(pages) <==> exists i :: 0 <= i < |pages| && HasImageTitled(pages[i], t)
    decreases |pages|
  {
    if pages != [] {
      var n := |pages| - 1;
      var init, last := pages[..n], pages[n];
      ArticleImageTitlesMembership(init, t);
      assert ArticleImageTitles(pages) == ArticleImageTitles(init) + PageImageTitles(last);
      assert t in PageImageTitles(last) <==> HasImageTitled(last, t) by {
        if last.images.Some? {
          PresentTitlesMembership(last.images.value, t);
        }
      }
      if exists i :: 0 <= i < |pages| && HasImageTitled(pages[i], t) {
        var i :| 0 <= i < |pages| && HasImageTitled(pages[i], t);
        if i < n {
          assert init[i] == pages[i];
        }
      }
      if exists i :: 0 <= i < n && HasImageTitled(init[i], t) {
        var i :| 0 <= i < n && HasImageTitled(init[i], t);
        assert init[i] == pages[i];
      }
    }
  }

  /** What the article strategy reports for the images answer: nothing and 0 when `query.pages` is not a list. */
  function ArticleOutcome(pages: Option<seq<Page>>, patterns: seq<string>, offset: nat): (r: Outcome)
    ensures pages.None? ==> r == Outcome([], 0)
  {
    if pages.None? then Outcome([], 0) else Paged(ArticleImageTitles(pages.value), patterns, offset)
  }

  /**
   * `search($term, $offset)` of the article strategy: the article search,
   * then, always, the images query for the ids of its hits.
   */
  function ArticleSearchModel(e: Endpoint, limit: int, patterns: seq<string>, w: World, term: string, offset: nat): MediaWikiApi.Listing {
    var articles := Query(e, w, ArticleSearchParams(term, limit));
    var images := Query(e, articles.world, ArticleImagesParams(PageIds(articles.response.search.GetOr([]))));
    var r := ArticleOutcome(images.response.pages, patterns, offset);
    MediaWikiApi.Listing(r.titles, r.total, images.world)
  }

  class ArticleSearchStrategy {
    const assetSource: MediaWikiAssetSource
    const mediaWikiClient: MediaWikiApi.MediaWikiClient
    var articleLimit: int

    /** Bound to the source, with the source's client; `initializeObject` then sets the article limit. */
    constructor(assetSource: MediaWikiAssetSource)
      requires assetSource.Valid()
      modifies assetSource`mediaWikiClient
      ensures this.assetSource == assetSource && assetSource.Valid()
      ensures assetSource.mediaWikiClient == Some(mediaWikiClient) && assetSource.IsOwnClient(mediaWikiClient)
      ensures old(assetSource.mediaWikiClient).Some? ==> mediaWikiClient == old(assetSource.mediaWikiClient).value
      ensures articleLimit == ArticleLimit(assetSource.assetSourceOptions)
    {
      var client := assetSource.GetMediaWikiClient();
      this.assetSource := assetSource;
      this.mediaWikiClient := client;
      new;
      InitializeObject();
    }

    method InitializeObject()
      modifies this`articleLimit
      ensures articleLimit == ArticleLimit(assetSource.assetSourceOptions)
    {
      articleLimit := assetSource.assetSourceOptions.articleLimit.GetOr(DefaultArticleLimit);
    }

    method Search(term: string, offset: nat) returns (r: ImageSearchResult)
      modifies mediaWikiClient.queryResultCache, mediaWikiClient.network
      ensures fresh(r)
      ensures ArticleSearchModel(mediaWikiClient.Endpoint(), articleLimit, ExcludedPatterns(assetSource.assetSourceOptions),
                                 old(mediaWikiClient.World()), term, offset)
        == MediaWikiApi.Listing(r.imageTitles, r.totalResults, mediaWikiClient.World())
    {
      var articleResultArray := mediaWikiClient.ExecuteQuery(ArticleSearchParams(term, articleLimit));
      r := BuildImageSearchResult(articleResultArray, offset);
    }

    method BuildImageSearchResult(searchResult: QueryResponse, offset: nat) returns (r: ImageSearchResult)
      modifies mediaWikiClient.queryResultCache, mediaWikiClient.network
      ensures fresh(r)
      ensures var images := Query(mediaWikiClient.Endpoint(), old(mediaWikiClient.World()),
                                  ArticleImagesParams(PageIds(searchResult.search.GetOr([]))));
        && mediaWikiClient.World() == images.world
        && Outcome(r.imageTitles, r.totalResults) == ArticleOutcome(images.response.pages, ExcludedPatterns(assetSource.assetSourceOptions), offset)
    {
      var documentResults := searchResult.search.GetOr([]);
      var documentIds := CollectPageIds(documentResults);
      var imageResultArray := mediaWikiClient.ExecuteQuery(ArticleImagesParams(documentIds));
      var pages := imageResultArray.pages;
      if pages.None? {
        r := new ImageSearchResult.Empty();
        return;
      }
      var allImages := CollectArticleImages(pages.value);
      r := PageResult(allImages, ExcludedPatterns(assetSource.assetSourceOptions), offset);
    }
  }

  /** The `$documentIds` loop. */
  method CollectPageIds(hits: seq<SearchHit>) returns (ids: seq<int>)
    ensures ids == PageIds(hits)
  {
    ids := [];
    for i := 0 to |hits|
      invariant ids == PageIds(hits[..i])
    {
      assert hits[..i + 1][..i] == hits[..i];
      if hits[i].pageId.Some? {
        ids := ids + [hits[i].pageId.value];
      }
    }
    assert hits[..|hits|] == hits;
  }

  /** The nested `$allImages` loops over the pages and their images. */
  method CollectArticleImages(pages: seq<Page>) returns (allImages: seq<string>)
    ensures allImages == ArticleImageTitles(pages)
  {
    allImages := [];
    for i := 0 to |pages|
      invariant allImages == ArticleImageTitles(pages[..i])
    {
      assert pages[..i + 1][..i] == pages[..i];
      var page := pages[i];
      if page.images.Some? {
        var images := page.images.value;
        ghost var before := allImages;
        for j := 0 to |images|
          invariant allImages == before + PresentTitles(images[..j])
        {
          assert images[..j + 1][..j] == images[..j];
          if images[j].title.Some? {
            allImages := allImages + [images[j].title.value];
          }
        }
        assert images[..|images|] == images;
      }
    }
    assert pages[..|pages|] == pages;
  }

  // ---------------------------------------------------------------------
  // Either strategy
  // ---------------------------------------------------------------------

  /** A strategy instance as the factory returns it. */
  datatype SearchStrategy = Direct(direct: DirectImageSearchStrategy) | Article(article: ArticleSearchStrategy)

  function StrategyClient(s: SearchStrategy): MediaWikiApi.MediaWikiClient {
    match s
    case Direct(d) => d.mediaWikiClient
    case Article(a) => a.mediaWikiClient
  }

  function StrategySource(s: SearchStrategy): MediaWikiAssetSource {
    match s
    case Direct(d) => d.assetSource
    case Article(a) => a.assetSource
  }

  /** What `search($term, $offset)` of the strategy computes; the article strategy never throws. */
  ghost function SearchModel(s: SearchStrategy, w: World, term: string, offset: nat): Searched
    reads if s.Article? then {s.article} else {}
  {
    match s
    case Direct(d) => DirectSearchModel(d.mediaWikiClient.Endpoint(), ExcludedPatterns(d.assetSource.assetSourceOptions), w, term, offset)
    case Article(a) => Listed(ArticleSearchModel(a.mediaWikiClient.Endpoint(), a.articleLimit, ExcludedPatterns(a.assetSource.assetSourceOptions), w, term, offset))
  }

  /** `$searchStrategy->search($term, $offset)`. */
  method Search(s: SearchStrategy, term: string, offset: nat) returns (r: Result<ImageSearchResult, Error>)
    modifies StrategyClient(s).queryResultCache, StrategyClient(s).network
    ensures r.Success? ==> fresh(r.value)
    ensures SearchModel(s, old(StrategyClient(s).World()), term, offset) == Searched(Reported(r), StrategyClient(s).World())
  {
    match s
    case Direct(d) =>
      r := d.Search(term, offset);
    case Article(a) =>
      var images := a.Search(term, offset);
      r := Success(images);
  }
}
