/**
 * The client for Wikimedia Commons: the same queries as the MediaWiki
 * client, with pages of 20 titles and no result cache.
 */
module WikimediaApi {
  import opened ApiTypes
  import opened QueryExecution
  import opened TitlePipeline
  import opened Dto
  import opened QueryResults
  import opened MediaWikiApi
  import Assoc

  const WikimediaItemsPerPage: nat := 20

  class WikimediaClient {
    const domain: string
    const network: Network

    constructor(domain: string, network: Network)
      ensures this.domain == domain && this.network == network
    {
      this.domain := domain;
      this.network := network;
    }

    /** Queries go straight to the API: the endpoint has the cache off. */
    function Endpoint(): Endpoint {
      QueryExecution.Endpoint(domain, false, network.server)
    }

    /** Without a cache the world is the requests sent so far. */
    ghost function World(): World
      reads network
    {
      QueryExecution.World(map[], network.sent)
    }

    /** `executeQuery($data)`: exactly one request per call, and its answer. */
    method ExecuteQuery(data: Params) returns (r: QueryResponse)
      modifies network
      ensures Answer(r, World()) == Query(Endpoint(), old(World()), data)
      ensures network.sent == old(network.sent) + [BuildQueryUrl(domain, data)]
    {
      r := network.Get(BuildQueryUrl(domain, data));
    }

    /** `countAll()`: the site's image count. */
    method CountAll() returns (n: int)
      modifies network
      ensures var a := Query(Endpoint(), old(World()), CountAllParams());
        n == a.response.imageCount && World() == a.world
    {
      var result := ExecuteQuery(CountAllParams());
      n := result.imageCount;
    }

    /** `findAll($offset)`: one listing page of 20 titles and the site's image count. */
    method FindAll(offset: nat) returns (r: ImageSearchResult)
      modifies network
      ensures fresh(r)
      ensures FindAllModel(Endpoint(), WikimediaItemsPerPage, old(World()), offset) == Listing(r.imageTitles, r.totalResults, World())
    {
      var resultArray := ExecuteQuery(FindAllParams(TotalResultLimit));
      var allImages := resultArray.allImages;
      var total := CountAll();
      r := new ImageSearchResult([], total);
      var imagesToExpand := Slice(allImages, offset, WikimediaItemsPerPage);
      AddExpandedTitles(r, imagesToExpand);
    }

    /**
     * `getAssetDetails($result, $thumbSize)`: the assets and the total that
     * the Wikimedia query result is built from; the total is passed through.
     */
    method GetAssetDetails(imageSearchResult: ImageSearchResult, thumbSize: int) returns (items: Entries, total: int)
      modifies network
      ensures Assoc.DistinctKeys(items)
      ensures AssetDetailsModel(Endpoint(), old(World()), imageSearchResult.imageTitles, imageSearchResult.totalResults, thumbSize)
        == Details(items, total, World())
    {
      var titles := imageSearchResult.GetImageTitles();
      var assetDetails := ExecuteQuery(AssetDetailsParams(titles, thumbSize));
      items := CollectAssetItems(PagesOf(assetDetails));
      AssetItemsShape(PagesOf(assetDetails));
      total := imageSearchResult.GetTotalResults();
    }
  }
}
