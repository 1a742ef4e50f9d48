/**
 * The client of one MediaWiki site: the listing of all images, the image
 * count, the details query that turns image titles into asset records, and
 * query execution through the optional result cache.
 */
module MediaWikiApi {
  import opened Wrappers
  import opened PhpStrings
  import opened PhpValues
  import opened ApiTypes
  import opened QueryExecution
  import opened TitlePipeline
  import opened Dto
  import opened QueryResults
  import Assoc

  /** The result limit of the listing query. */
  const TotalResultLimit: int := 500

  const ItemsPerPage: nat := 30

  /** The thumbnail size `getAssetDetails` asks for when none is given. */
  const DefaultThumbSize: int := 240

  const ImageInfoProperties: string := "url|size|metadata|extmetadata|user"

  // ---------------------------------------------------------------------
  // Query parameters
  // ---------------------------------------------------------------------

  /** All images, newest first. */
  function FindAllParams(limit: int): Params {
    [("list", "allimages"), ("aisort", "timestamp"), ("aidir", "older"), ("ailimit", IntToString(limit))]
  }

  /** The site statistics. */
  function CountAllParams(): Params {
    [("siprop", "statistics"), ("meta", "siteinfo")]
  }

  /** The image information of the titles, joined by `|`, with thumbnails of the given size. */
  function AssetDetailsParams(titles: seq<string>, thumbSize: int): Params {
    [("prop", "imageinfo"), ("titles", Implode("|", titles)), ("iiprop", ImageInfoProperties),
     ("iiurlwidth", IntToString(thumbSize)), ("iiurlheight", IntToString(thumbSize))]
  }

  // ---------------------------------------------------------------------
  // The listing
  // ---------------------------------------------------------------------

  /** `str_replace(' ', '_', $image['title'])`; a missing title reads as null, which gives ''. */
  function ExpandedTitle(image: ImageRef): string {
    ReplaceSpaces(image.title.GetOr(""))
  }

  /** A listing: the titles of one page, the total reported with them, and the world after the queries. */
  datatype Listing = Listing(titles: seq<string>, total: int, world: World)

  /**
   * `findAll($offset)`: the listing query first, then the count query; the
   * titles are the underscored titles of `allimages[offset .. offset +
   * perPage]`, the total is the site's image count.
   */
  function FindAllModel(e: Endpoint, perPage: nat, w: World, offset: nat): Listing {
    var listing := Query(e, w, FindAllParams(TotalResultLimit));
    var count := Query(e, listing.world, CountAllParams());
    var page := Slice(listing.response.allImages, offset, perPage);
    Listing(seq(|page|, k requires 0 <= k < |page| => ExpandedTitle(page[k])), count.response.imageCount, count.world)
  }

  /**
   * The page holds at most `perPage` titles, those of the listed images from
   * the offset on, and its total is the count answer, not the page length.
   */
  lemma FindAllModelPage(e: Endpoint, perPage: nat, w: World, offset: nat)
    ensures var r, listing := FindAllModel(e, perPage, w, offset), Query(e, w, FindAllParams(TotalResultLimit));
      var images := listing.response.allImages;
      && |r.titles| <= perPage
      && |r.titles| == (if offset >= |images| then 0 else Min(perPage, |images| - offset))
      && (offset >= |images| ==> r.titles == [])
      && (forall k :: 0 <= k < |r.titles| ==> offset + k < |images| && r.titles[k] == ExpandedTitle(images[offset + k]))
      && r.total == Query(e, listing.world, CountAllParams()).response.imageCount
  {
  }

  // ---------------------------------------------------------------------
  // Asset details
  // ---------------------------------------------------------------------

  /** `explode(':', $title)[1]`: the text between the first and the second ':', null without a ':'. */
  function Filename(title: string): Value {
    var parts := Explode(':', title);
    if |parts| >= 2 then Str(parts[1]) else Null
  }

  /** A title without a ':' has no filename. */
  lemma FilenameWithoutColon(title: string)
    requires ':' !in title
    ensures Filename(title) == Null
  {
    ExplodeNoSeparator(':', title);
  }

  /** The filename of `ns:name` and of `ns:name:more` is `name`. */
  lemma FilenameAfterFirstColon(ns: string, name: string, more: string)
    requires ':' !in ns && ':' !in name
    ensures Filename(ns + ":" + name) == Str(name)
    ensures Filename(ns + ":" + name + ":" + more) == Str(name)
  {
    ExplodeAtFirstSeparator(':', ns, name);
    ExplodeNoSeparator(':', name);
    assert ns + ":" + name == ns + [':'] + name;
    ExplodeAtFirstSeparator(':', ns, name + ":" + more);
    assert ns + ":" + name + ":" + more == ns + [':'] + (name + ":" + more);
    ExplodeAtFirstSeparator(':', name, more);
    assert name + ":" + more == name + [':'] + more;
  }

  /**
   * The record of a page that has `imageinfo`: its first entry (nothing
   * when the list is empty) with `identifier` and `filename` added.
   */
  function AssetItem(p: Page): Record
    requires p.imageInfo.Some?
  {
    var info := p.imageInfo.value;
    var first: Record := if |info| > 0 then info[0] else map[];
    first["identifier" := Str(ReplaceSpaces(p.title))]["filename" := Filename(p.title)]
  }

  /** The page gives the asset under this identifier. */
  predicate Contributes(p: Page, identifier: string) {
    p.imageInfo.Some? && ReplaceSpaces(p.title) == identifier
  }

  /**
   * The `$items` array built from the pages in order: pages without
   * `imageinfo` are skipped, each other page is stored under its underscored
   * title, a later page replacing an earlier one of the same identifier in
   * its place.
   */
  function AssetItems(pages: seq<Page>): Entries
    decreases |pages|
  {
    if pages == [] then []
    else
      var p := pages[|pages| - 1];
      var items := AssetItems(pages[..|pages| - 1]);
      if p.imageInfo.None? then items else Assoc.Put(items, ReplaceSpaces(p.title), AssetData(AssetItem(p)))
  }

  function PagesOf(r: QueryResponse): seq<Page> {
    if r.pages.Some? then r.pages.value else []
  }

  /** The last page that gives the asset under the identifier, if any. */
  function LastContributor(pages: seq<Page>, identifier: string): (r: Option<nat>)
    ensures r.Some? ==> r.value < |pages| && Contributes(pages[r.value], identifier)
    ensures r.Some? ==> forall j :: r.value < j < |pages| ==> !Contributes(pages[j], identifier)
    ensures r.None? ==> forall i :: 0 <= i < |pages| ==> !Contributes(pages[i], identifier)
    decreases |pages|
  {
    if pages == [] then None
    else if Contributes(pages[|pages| - 1], identifier) then Some(|pages| - 1)
    else
      var r := LastContributor(pages[..|pages| - 1], identifier);
      assert forall i :: 0 <= i < |pages| - 1 ==> pages[..|pages| - 1][i] == pages[i];
      r
  }

  /**
   * The asset stored under an identifier is the record of the last page
   * that has `imageinfo` and that underscored title; there is none when no
   * page has.
   */
  lemma {:induction false} AssetItemsLookup(pages: seq<Page>, identifier: string)
    ensures Assoc.Get(AssetItems(pages), identifier) ==
      match LastContributor(pages, identifier)
      case None => None
      case Some(i) => Some(AssetData(AssetItem(pages[i])))
    decreases |pages|
  {
    if pages != [] {
      var n := |pages| - 1;
      var p, init := pages[n], pages[..n];
      AssetItemsLookup(init, identifier);
      if p.imageInfo.Some? {
        Assoc.GetPut(AssetItems(init), ReplaceSpaces(p.title), AssetData(AssetItem(p)), identifier);
      }
      if !Contributes(p, identifier) {
        var r := LastContributor(init, identifier);
        if r.Some? {
          assert init[r.value] == pages[r.value];
        }
      }
    }
  }

  /** The asset's `identifier` field is its key, and it has a `filename`. */
  predicate KeyedAsset(q: (string, Element)) {
    q.1.AssetData? && "identifier" in q.1.data && q.1.data["identifier"] == Str(q.0) && "filename" in q.1.data
  }

  /**
   * Identifiers are distinct, there are no more assets than pages, and
   * each asset's `identifier` field is its key and it has a `filename`.
   */
  lemma {:induction false} AssetItemsShape(pages: seq<Page>)
    ensures Assoc.DistinctKeys(AssetItems(pages))
    ensures |AssetItems(pages)| <= |pages|
    ensures forall q :: q in AssetItems(pages) ==> KeyedAsset(q)
    decreases |pages|
  {
    if pages != [] {
      var n := |pages| - 1;
      var p, init := pages[n], pages[..n];
      AssetItemsShape(init);
      var items := AssetItems(init);
      if p.imageInfo.Some? {
        var id, v := ReplaceSpaces(p.title), AssetData(AssetItem(p));
        assert AssetItems(pages) == Assoc.Put(items, id, v);
        Assoc.PutKeepsKeysDistinct(items, id, v);
        Assoc.PutElements(items, id, v);
        assert KeyedAsset((id, v));
        forall q | q in Assoc.Put(items, id, v)
          ensures KeyedAsset(q)
        {
        }
      } else {
        assert AssetItems(pages) == items;
      }
    }
  }

  /** A details answer: the assets and the total they are reported with. */
  datatype Details = Details(items: Entries, total: int, world: World)

  /** `getAssetDetails`: one details query for the titles; the total is passed through. */
  function AssetDetailsModel(e: Endpoint, w: World, titles: seq<string>, total: int, thumbSize: int): Details {
    var a := Query(e, w, AssetDetailsParams(titles, thumbSize));
    Details(AssetItems(PagesOf(a.response)), total, a.world)
  }

  /**
   * The loop body of `getAssetDetails` for one page, on the items built so
   * far: skip a page without `imageinfo`, otherwise store its record.
   */
  method AddAssetItem(items: Entries, page: Page) returns (r: Entries)
    ensures r == if page.imageInfo.None? then items else Assoc.Put(items, ReplaceSpaces(page.title), AssetData(AssetItem(page)))
  {
    if page.imageInfo.None? {
      return items;
    }
    var identifier := ReplaceSpaces(page.title);
    var info := page.imageInfo.value;
    var record: Record := if |info| > 0 then info[0] else map[];
    record := record["identifier" := Str(identifier)];
    record := record["filename" := Filename(page.title)];
    r := Assoc.Put(items, identifier, AssetData(record));
  }

  /** The `$items` loop of `getAssetDetails` over all pages. */
  method CollectAssetItems(pages: seq<Page>) returns (items: Entries)
    ensures items == AssetItems(pages)
  {
    items := [];
    for i := 0 to |pages|
      invariant items == AssetItems(pages[..i])
    {
      assert pages[..i + 1][..i] == pages[..i];
      items := AddAssetItem(items, pages[i]);
    }
    assert pages[..|pages|] == pages;
  }

  /** The titles added in the `findAll` loop, one per image of the page. */
  method AddExpandedTitles(r: ImageSearchResult, images: seq<ImageRef>)
    modifies r`imageTitles
    ensures r.imageTitles == old(r.imageTitles) + seq(|images|, k requires 0 <= k < |images| => ExpandedTitle(images[k]))
  {
    ghost var before := r.imageTitles;
    for i := 0 to |images|
      invariant r.imageTitles == before + seq(i, k requires 0 <= k < i => ExpandedTitle(images[k]))
    {
      r.AddImageTitle(ExpandedTitle(images[i]));
    }
  }

  // ---------------------------------------------------------------------
  // The client
  // ---------------------------------------------------------------------

  class MediaWikiClient {
    const domain: string
    const useQueryResultCache: bool
    /** The query result cache and the HTTP client the framework hands in. */
    const queryResultCache: QueryResultCache
    const network: Network

    constructor(domain: string, useQueryResultCache: bool, queryResultCache: QueryResultCache, network: Network)
      ensures this.domain == domain && this.useQueryResultCache == useQueryResultCache
      ensures this.queryResultCache == queryResultCache && this.network == network
    {
      this.domain := domain;
      this.useQueryResultCache := useQueryResultCache;
      this.queryResultCache := queryResultCache;
      this.network := network;
    }

    function Endpoint(): Endpoint {
      QueryExecution.Endpoint(domain, useQueryResultCache, network.server)
    }

    ghost function World(): World
      reads queryResultCache, network
    {
      QueryExecution.World(queryResultCache.entries, network.sent)
    }

    /** `executeQuery($data)`. */
    method ExecuteQuery(data: Params) returns (r: QueryResponse)
      modifies queryResultCache, network
      ensures Answer(r, World()) == Query(Endpoint(), old(World()), data)
    {
      var queryUrl := BuildQueryUrl(domain, data);
      if useQueryResultCache && queryUrl in queryResultCache.entries {
        return queryResultCache.entries[queryUrl];
      }
      r := network.Get(queryUrl);
      if useQueryResultCache {
        queryResultCache.entries := queryResultCache.entries[queryUrl := r];
      }
    }

    /** `countAll()`: the site's image count. */
    method CountAll() returns (n: int)
      modifies queryResultCache, network
      ensures var a := Query(Endpoint(), old(World()), CountAllParams());
        n == a.response.imageCount && World() == a.world
    {
      var result := ExecuteQuery(CountAllParams());
      n := result.imageCount;
    }

    /** `findAll($offset)`: one listing page of 30 titles and the site's image count. */
    method FindAll(offset: nat) returns (r: ImageSearchResult)
      modifies queryResultCache, network
      ensures fresh(r)
      ensures FindAllModel(Endpoint(), ItemsPerPage, old(World()), offset) == Listing(r.imageTitles, r.totalResults, World())
    {
      var resultArray := ExecuteQuery(FindAllParams(TotalResultLimit));
      var allImages := resultArray.allImages;
      var total := CountAll();
      r := new ImageSearchResult([], total);
      var imagesToExpand := Slice(allImages, offset, ItemsPerPage);
      AddExpandedTitles(r, imagesToExpand);
    }

    /**
     * `getAssetDetails($result, $thumbSize)`: the assets of the result's
     * titles, with the result's total passed through unchanged.
     */
    method GetAssetDetails(imageSearchResult: ImageSearchResult, thumbSize: int) returns (r: MediaWikiQueryResult)
      modifies queryResultCache, network
      ensures fresh(r) && fresh(r.assets) && fresh(r.assetIterator)
      ensures r.assetIterator.storage == r.assets && r.assetIterator.position == 0 && r.assetIterator.Inv()
      ensures AssetDetailsModel(Endpoint(), old(World()), imageSearchResult.imageTitles, imageSearchResult.totalResults, thumbSize)
        == Details(r.assets.entries, r.totalResults, World())
    {
      var titles := imageSearchResult.GetImageTitles();
      var assetDetails := ExecuteQuery(AssetDetailsParams(titles, thumbSize));
      var items := CollectAssetItems(PagesOf(assetDetails));
      AssetItemsShape(PagesOf(assetDetails));
      var total := imageSearchResult.GetTotalResults();
      r := new MediaWikiQueryResult(items, total);
    }
  }
}
