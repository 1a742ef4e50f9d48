/**
 * The query the media library runs against the source, and the result it
 * walks: a cursor over the assets of one details query, handing out asset
 * proxies.
 */
module AssetProxyQuery {
  import opened Wrappers
  import opened PhpStrings
  import opened PhpValues
  import opened Failures
  import opened QueryExecution
  import opened QueryResults
  import opened AssetSource
  import opened AssetProxy
  import opened StrategyFactory
  import Assoc
  import Dto
  import MediaWikiApi
  import SearchStrategies

  const DefaultLimit: int := 20

  // ---------------------------------------------------------------------
  // What `execute` computes
  // ---------------------------------------------------------------------

  /** What the strategy of the given kind, built for a source with these options, computes for a search. */
  function StrategySearch(kind: StrategyKind, options: Options, e: Endpoint, w: World, term: string, offset: nat): SearchStrategies.Searched {
    match kind
    case DirectImageSearch =>
      SearchStrategies.DirectSearchModel(e, SearchStrategies.ExcludedPatterns(options), w, term, offset)
    case ArticleSearch =>
      SearchStrategies.Listed(SearchStrategies.ArticleSearchModel(e, SearchStrategies.ArticleLimit(options), SearchStrategies.ExcludedPatterns(options), w, term, offset))
  }

  /**
   * The image titles `execute` selects: with an empty term (PHP `empty`)
   * the first listing page, whatever the offset; otherwise the factory's
   * error, with nothing queried, or the configured strategy's search at
   * the offset.
   */
  function SelectionModel(options: Options, e: Endpoint, w: World, searchTerm: string, offset: nat): SearchStrategies.Searched {
    if IsEmptyString(searchTerm) then
      SearchStrategies.Listed(MediaWikiApi.FindAllModel(e, MediaWikiApi.ItemsPerPage, w, 0))
    else
      match ResolveStrategy(options.searchStrategy)
      case Failure(error) => SearchStrategies.Searched(Failure(error), w)
      case Success(kind) => StrategySearch(kind, options, e, w, searchTerm, offset)
  }

  /** `execute()`: the selection, then the details of the selected titles with thumbnails of 240 pixels. */
  function ExecuteModel(options: Options, e: Endpoint, w: World, searchTerm: string, offset: nat): Result<MediaWikiApi.Details, Error> {
    var selection := SelectionModel(options, e, w, searchTerm, offset);
    match selection.outcome
    case Failure(error) => Failure(error)
    case Success(page) => Success(MediaWikiApi.AssetDetailsModel(e, selection.world, page.titles, page.total, MediaWikiApi.DefaultThumbSize))
  }

  /** The direct strategy's search throws: a pattern meets an untitled image of the first page. */
  predicate DirectSearchThrows(options: Options, e: Endpoint, w: World, searchTerm: string) {
    SearchStrategies.UntitledUnderPatterns(Query(e, w, SearchStrategies.DirectSearchParams(searchTerm)).response.pages,
                                           SearchStrategies.ExcludedPatterns(options))
  }

  /**
   * With an empty search term the stored offset plays no part: `findAll`
   * is called for the first page. A failure is the factory's, and then
   * nothing was queried, or the direct strategy's `TypeError`; the article
   * strategy never fails.
   */
  lemma ExecuteModelFacts(options: Options, e: Endpoint, w: World, searchTerm: string, offset: nat, offset': nat)
    ensures IsEmptyString(searchTerm) ==>
      ExecuteModel(options, e, w, searchTerm, offset) == ExecuteModel(options, e, w, searchTerm, offset')
    ensures IsEmptyString(searchTerm) ==> ExecuteModel(options, e, w, searchTerm, offset).Success?
    ensures ExecuteModel(options, e, w, searchTerm, offset).Failure? <==>
      !IsEmptyString(searchTerm) &&
      (ResolveStrategy(options.searchStrategy).Failure? ||
       (ResolveStrategy(options.searchStrategy) == Success(DirectImageSearch) && DirectSearchThrows(options, e, w, searchTerm)))
    ensures !IsEmptyString(searchTerm) && ResolveStrategy(options.searchStrategy).Failure? ==>
      && ExecuteModel(options, e, w, searchTerm, offset) == Failure(ResolveStrategy(options.searchStrategy).error)
      && SelectionModel(options, e, w, searchTerm, offset).world == w
    ensures ExecuteModel(options, e, w, searchTerm, offset).Failure? && ResolveStrategy(options.searchStrategy).Success? ==>
      ExecuteModel(options, e, w, searchTerm, offset).error == TypeError
  {
  }

  /** A strategy the factory built for a source computes what its kind and the source's options say. */
  lemma StrategySearchOf(s: SearchStrategies.SearchStrategy, source: MediaWikiAssetSource, w: World, term: string, offset: nat)
    requires SearchStrategies.StrategySource(s) == source && source.IsOwnClient(SearchStrategies.StrategyClient(s))
    requires s.Article? ==> s.article.articleLimit == SearchStrategies.ArticleLimit(source.assetSourceOptions)
    ensures SearchStrategies.SearchModel(s, w, term, offset) == StrategySearch(KindOf(s), source.assetSourceOptions, source.Endpoint(), w, term, offset)
  {
    OwnClientEndpoint(source, SearchStrategies.StrategyClient(s));
  }

  // ---------------------------------------------------------------------
  // The query
  // ---------------------------------------------------------------------

  class MediaWikiAssetProxyQuery {
    const assetSource: MediaWikiAssetSource
    var limit: int
    var offset: nat
    var searchTerm: string

    /** A new query: limit 20, offset 0, no search term. */
    constructor(assetSource: MediaWikiAssetSource)
      ensures this.assetSource == assetSource
      ensures limit == DefaultLimit && offset == 0 && searchTerm == ""
    {
      this.assetSource := assetSource;
      limit := DefaultLimit;
      offset := 0;
      searchTerm := "";
    }

    method SetOffset(offset: nat)
      modifies this`offset
      ensures this.offset == offset
    {
      this.offset := offset;
    }

    function GetOffset(): (n: nat)
      reads this
      ensures n == offset
    {
      offset
    }

    method SetLimit(limit: int)
      modifies this`limit
      ensures this.limit == limit
    {
      this.limit := limit;
    }

    function GetLimit(): (n: int)
      reads this
      ensures n == limit
    {
      limit
    }

    function GetSearchTerm(): (t: string)
      reads this
      ensures t == searchTerm
    {
      searchTerm
    }

    method SetSearchTerm(searchTerm: string)
      modifies this`searchTerm
      ensures this.searchTerm == searchTerm
    {
      this.searchTerm := searchTerm;
    }

    /**
     * `execute()`: selects the titles, fetches their details and wraps them
     * in a new result over this query. The limit is not read.
     */
    method Execute() returns (r: Result<MediaWikiAssetProxyQueryResult, Error>)
      requires assetSource.Valid()
      modifies assetSource`mediaWikiClient, assetSource.queryResultCache, assetSource.network
      ensures assetSource.Valid()
      ensures var m := ExecuteModel(assetSource.assetSourceOptions, assetSource.Endpoint(), old(assetSource.World()), searchTerm, offset);
        && (r.Failure? <==> m.Failure?)
        && (r.Failure? ==> r.error == m.error)
        && (r.Failure? ==> assetSource.World() == SelectionModel(assetSource.assetSourceOptions, assetSource.Endpoint(), old(assetSource.World()), searchTerm, offset).world)
        && (r.Success? ==>
              && fresh(r.value) && fresh(r.value.mediaWikiQueryResult)
              && r.value.query == this && r.value.assetSource == assetSource && r.value.Inv()
              && r.value.resultIterator.position == 0
              && m.value == MediaWikiApi.Details(r.value.mediaWikiQueryResult.assets.entries, r.value.mediaWikiQueryResult.totalResults, assetSource.World()))
    {
      var selected := SelectImages();
      if selected.Failure? {
        return Failure(selected.error);
      }
      var client := assetSource.GetMediaWikiClient();
      OwnClientEndpoint(assetSource, client);
      var assetData := client.GetAssetDetails(selected.value, MediaWikiApi.DefaultThumbSize);
      var result := new MediaWikiAssetProxyQueryResult(this, assetData, assetSource);
      r := Success(result);
    }

    /** The first half of `execute()`: the `findAll` page for an empty term, otherwise the strategy's search. */
    method SelectImages() returns (r: Result<Dto.ImageSearchResult, Error>)
      requires assetSource.Valid()
      modifies assetSource`mediaWikiClient, assetSource.queryResultCache, assetSource.network
      ensures assetSource.Valid()
      ensures r.Success? ==> fresh(r.value)
      ensures SelectionModel(assetSource.assetSourceOptions, assetSource.Endpoint(), old(assetSource.World()), searchTerm, offset)
        == SearchStrategies.Searched(SearchStrategies.Reported(r), assetSource.World())
    {
      if IsEmptyString(searchTerm) {
        var client := assetSource.GetMediaWikiClient();
        OwnClientEndpoint(assetSource, client);
        var images := client.FindAll(0);
        r := Success(images);
      } else {
        var searchStrategy := GetInstanceForAssetSource(assetSource);
        if searchStrategy.Failure? {
          return Failure(searchStrategy.error);
        }
        var s := searchStrategy.value;
        StrategySearchOf(s, assetSource, assetSource.World(), searchTerm, offset);
        r := SearchStrategies.Search(s, searchTerm, offset);
      }
    }

    /** `count()` is not implemented and always throws. */
    method Count() returns (r: Result<int, Error>)
      ensures r.Failure? && r.error.NotImplemented?
    {
      r := Failure(NotImplemented("count"));
    }
  }

  // ---------------------------------------------------------------------
  // getFirst and toArray
  // ---------------------------------------------------------------------

  /** The record under key "0" (what `offsetGet(0)` reads); a missing key or a non-array makes the proxy constructor throw. */
  function FirstAsWritten(entries: Entries): (r: Result<Record, Error>)
    ensures r.Success? <==> Assoc.Get(entries, "0").Some? && Assoc.Get(entries, "0").value.AssetData?
  {
    var e := Assoc.Get(entries, "0");
    if e.Some? && e.value.AssetData? then Success(e.value.data) else Failure(TypeError)
  }

  /**
   * As written, `getFirst` fails on any non-empty result of a details
   * query: its keys are image titles, none of them "0".
   */
  lemma FirstAsWrittenFailsOnTitles(entries: Entries)
    requires entries != [] && !Assoc.HasKey(entries, "0")
    ensures FirstAsWritten(entries) == Failure(TypeError)
  {
  }

  /** One asset under its title: `getFirst` as written throws although there is a first asset. */
  lemma FirstAsWrittenCounterexample()
    ensures var entries := [("File:Example.jpg", AssetData(map["identifier" := Str("File:Example.jpg")]))];
      && First(entries) == Success(Some(map["identifier" := Str("File:Example.jpg")]))
      && FirstAsWritten(entries) == Failure(TypeError)
  {
    var entries := [("File:Example.jpg", AssetData(map["identifier" := Str("File:Example.jpg")]))];
    assert Assoc.Get(entries, "0") == None by {
      assert !Assoc.HasKey(entries, "0") by {
        assert Assoc.Keys(entries) == ["File:Example.jpg"];
      }
    }
  }

  /** The first asset of the result by position: nothing for an empty result; a non-array still throws. */
  function First(entries: Entries): (r: Result<Option<Record>, Error>)
    ensures r == Success(None) <==> entries == []
    ensures r.Success? && r.value.Some? ==> entries[0].1 == AssetData(r.value.value)
  {
    if entries == [] then Success(None)
    else match entries[0].1
      case AssetData(data) => Success(Some(data))
      case Scalar(_) => Failure(TypeError)
  }

  /** On the assets of a details query, the first is the first page's asset. */
  lemma FirstOfKeyedAssets(entries: Entries)
    requires entries != [] && forall q :: q in entries ==> MediaWikiApi.KeyedAsset(q)
    ensures entries[0].1.AssetData? && First(entries) == Success(Some(entries[0].1.data))
  {
    assert MediaWikiApi.KeyedAsset(entries[0]);
  }

  /** `toArray()` as written calls `getArrayCopy`, which the query result class does not declare. */
  function ToArrayAsWritten(entries: Entries): (r: Result<seq<Record>, Error>)
    ensures r.Failure? && r.error == UndefinedMethod("getArrayCopy")
  {
    Failure(UndefinedMethod("getArrayCopy"))
  }

  /** The records of all assets in order, for a proxy each; nothing when an element is not an array. */
  function AssetRecords(entries: Entries): (r: Option<seq<Record>>)
    ensures r.Some? <==> forall i :: 0 <= i < |entries| ==> entries[i].1.AssetData?
    ensures r.Some? ==> |r.value| == |entries| && forall i :: 0 <= i < |entries| ==> entries[i].1 == AssetData(r.value[i])
    decreases |entries|
  {
    if entries == [] then Some([])
    else
      var init := AssetRecords(entries[..|entries| - 1]);
      var last := entries[|entries| - 1].1;
      if init.Some? && last.AssetData? then Some(init.value + [last.data]) else None
  }

  /** As written `toArray` fails even where every asset has its record. */
  lemma ToArrayAsWrittenFails(entries: Entries)
    requires forall q :: q in entries ==> MediaWikiApi.KeyedAsset(q)
    ensures AssetRecords(entries).Some? && ToArrayAsWritten(entries).Failure?
  {
    forall i | 0 <= i < |entries|
      ensures entries[i].1.AssetData?
    {
      assert MediaWikiApi.KeyedAsset(entries[i]);
    }
  }

  // ---------------------------------------------------------------------
  // The result
  // ---------------------------------------------------------------------

  class MediaWikiAssetProxyQueryResult {
    const query: MediaWikiAssetProxyQuery
    const assetSource: MediaWikiAssetSource
    const mediaWikiQueryResult: MediaWikiQueryResult
    /** The query result's own iterator, taken once: every cursor operation moves it. */
    const resultIterator: AssetIterator

    ghost predicate Inv()
      reads resultIterator, resultIterator.storage
    {
      && resultIterator == mediaWikiQueryResult.assetIterator
      && resultIterator.storage == mediaWikiQueryResult.assets
      && resultIterator.Inv()
    }

    constructor(query: MediaWikiAssetProxyQuery, mediaWikiQueryResult: MediaWikiQueryResult, assetSource: MediaWikiAssetSource)
      requires mediaWikiQueryResult.assetIterator.storage == mediaWikiQueryResult.assets
      requires mediaWikiQueryResult.assetIterator.Inv()
      ensures this.query == query && this.mediaWikiQueryResult == mediaWikiQueryResult && this.assetSource == assetSource
      ensures resultIterator == mediaWikiQueryResult.assetIterator && Inv()
    {
      this.query := query;
      this.assetSource := assetSource;
      this.mediaWikiQueryResult := mediaWikiQueryResult;
      resultIterator := mediaWikiQueryResult.GetAssetIterator();
    }

    /** `getQuery()`: a new query with the same source and fields, so changing it leaves the stored one alone. */
    method GetQuery() returns (q: MediaWikiAssetProxyQuery)
      ensures fresh(q) && q != query
      ensures q.assetSource == query.assetSource
      ensures q.limit == query.limit && q.offset == query.offset && q.searchTerm == query.searchTerm
    {
      q := new MediaWikiAssetProxyQuery(query.assetSource);
      q.limit, q.offset, q.searchTerm := query.limit, query.offset, query.searchTerm;
    }

    /** A new proxy over an asset's record. */
    method NewProxy(data: Record) returns (p: MediaWikiAssetProxy)
      ensures fresh(p) && p.assetData == data && p.assetSource == assetSource
      ensures p.iptcProperties == None && p.Valid()
    {
      p := new MediaWikiAssetProxy(data, assetSource);
    }

    /** `current()`: a proxy when the element under the cursor is an array, nothing otherwise. */
    method Current() returns (p: Option<MediaWikiAssetProxy>)
      requires Inv()
      ensures var e := resultIterator.Current();
        && (p.Some? <==> e.Some? && e.value.AssetData?)
        && (p.Some? ==> fresh(p.value) && p.value.assetData == e.value.data && p.value.assetSource == assetSource)
    {
      var asset := resultIterator.Current();
      if asset.Some? && asset.value.AssetData? {
        var proxy := NewProxy(asset.value.data);
        p := Some(proxy);
      } else {
        p := None;
      }
    }

    /** `next()`: moves the shared cursor. */
    method Next()
      requires Inv()
      modifies resultIterator`position
      ensures Inv()
      ensures resultIterator.position == if old(resultIterator.Valid()) then old(resultIterator.position) + 1 else old(resultIterator.position)
    {
      resultIterator.Next();
    }

    /** `key()`: the key under the shared cursor. */
    function Key(): (k: Option<string>)
      reads resultIterator, resultIterator.storage
      ensures k == resultIterator.Key()
      ensures k.Some? <==> resultIterator.position < |resultIterator.storage.entries|
    {
      resultIterator.Key()
    }

    /** `valid()`: the shared cursor stands on an entry. */
    function Valid(): (b: bool)
      reads resultIterator, resultIterator.storage
      ensures b <==> resultIterator.position < |resultIterator.storage.entries|
    {
      resultIterator.Valid()
    }

    /** `rewind()`: the shared cursor back to the first entry. */
    method Rewind()
      requires Inv()
      modifies resultIterator`position
      ensures Inv() && resultIterator.position == 0
    {
      resultIterator.Rewind();
    }

    function OffsetExists(k: string): (b: bool)
      reads resultIterator.storage
      ensures b <==> Assoc.HasKey(resultIterator.storage.entries, k)
    {
      resultIterator.OffsetExists(k)
    }

    /** `offsetGet($k)`: a proxy over the record under the key; a missing key or a non-array makes the constructor throw. */
    method OffsetGet(k: string) returns (r: Result<MediaWikiAssetProxy, Error>)
      requires Inv()
      ensures var e := Assoc.Get(resultIterator.storage.entries, k);
        && (r.Success? <==> e.Some? && e.value.AssetData?)
        && (r.Failure? ==> r.error == TypeError)
        && (r.Success? ==> fresh(r.value) && r.value.assetData == e.value.data && r.value.assetSource == assetSource)
    {
      var e := resultIterator.OffsetGet(k);
      if e.Some? && e.value.AssetData? {
        var proxy := NewProxy(e.value.data);
        r := Success(proxy);
      } else {
        r := Failure(TypeError);
      }
    }

    /** `offsetSet($k, $v)`: writes into the query result's collection. */
    method OffsetSet(k: string, e: Element)
      requires Inv()
      modifies resultIterator.storage
      ensures Inv() && resultIterator.storage.entries == Assoc.Put(old(resultIterator.storage.entries), k, e)
      ensures mediaWikiQueryResult.assets.entries == Assoc.Put(old(mediaWikiQueryResult.assets.entries), k, e)
      ensures resultIterator.position == old(resultIterator.position) && OffsetExists(k)
    {
      resultIterator.OffsetSet(k, e);
    }

    /**
     * `offsetUnset($k)`: removes from the query result's collection and
     * moves the shared cursor as `ArrayIterator` does: it keeps standing on
     * the same entry when an earlier one goes, and moves on to the next
     * entry when its own goes.
     */
    method OffsetUnset(k: string)
      requires Inv()
      modifies resultIterator.storage, resultIterator`position
      ensures Inv() && resultIterator.storage.entries == Assoc.Remove(old(resultIterator.storage.entries), k)
      ensures mediaWikiQueryResult.assets.entries == Assoc.Remove(old(mediaWikiQueryResult.assets.entries), k)
      ensures !OffsetExists(k)
      ensures !old(OffsetExists(k)) ==> resultIterator.position == old(resultIterator.position)
      ensures old(OffsetExists(k)) && Assoc.IndexOf(old(resultIterator.storage.entries), k).value < old(resultIterator.position) ==>
        resultIterator.position == old(resultIterator.position) - 1 && resultIterator.Current() == old(resultIterator.Current())
      ensures old(OffsetExists(k)) && Assoc.IndexOf(old(resultIterator.storage.entries), k).value >= old(resultIterator.position) ==>
        resultIterator.position == old(resultIterator.position)
      ensures old(OffsetExists(k)) && Assoc.IndexOf(old(resultIterator.storage.entries), k).value == old(resultIterator.position) ==>
        resultIterator.Current() ==
          if old(resultIterator.position) + 1 < |old(resultIterator.storage.entries)|
          then Some(old(resultIterator.storage.entries)[old(resultIterator.position) + 1].1) else None
    {
      resultIterator.OffsetUnset(k);
    }

    /** `count()`: the query result's total, not the number of assets held. */
    function Count(): (n: int)
      ensures n == mediaWikiQueryResult.GetTotalResults()
    {
      mediaWikiQueryResult.GetTotalResults()
    }

    /** `getFirst()`: a proxy over the first asset by position; nothing when the result is empty. */
    method GetFirst() returns (r: Result<Option<MediaWikiAssetProxy>, Error>)
      requires Inv()
      ensures var f := First(resultIterator.storage.entries);
        && (r.Failure? <==> f.Failure?)
        && (r.Success? ==> (r.value.Some? <==> f.value.Some?))
        && (r.Success? && r.value.Some? ==>
              fresh(r.value.value) && r.value.value.assetData == f.value.value && r.value.value.assetSource == assetSource)
    {
      var entries := resultIterator.storage.entries;
      if entries == [] {
        return Success(None);
      }
      match entries[0].1
      case AssetData(data) =>
        var proxy := NewProxy(data);
        r := Success(Some(proxy));
      case Scalar(_) =>
        r := Failure(TypeError);
    }

    /** `toArray()`: a proxy over each asset in order; a non-array element makes the constructor throw. */
    method ToArray() returns (r: Result<seq<MediaWikiAssetProxy>, Error>)
      requires Inv()
      ensures var records := AssetRecords(resultIterator.storage.entries);
        && (r.Success? <==> records.Some?)
        && (r.Failure? ==> r.error == TypeError)
        && (r.Success? ==>
              && |r.value| == |records.value|
              && forall i :: 0 <= i < |r.value| ==>
                   fresh(r.value[i]) && r.value[i].assetData == records.value[i] && r.value[i].assetSource == assetSource)
    {
      var entries := resultIterator.storage.entries;
      var proxies: seq<MediaWikiAssetProxy> := [];
      for i := 0 to |entries|
        invariant AssetRecords(entries[..i]).Some?
        invariant |proxies| == i
        invariant forall j :: 0 <= j < i ==>
          fresh(proxies[j]) && entries[j].1 == AssetData(proxies[j].assetData) && proxies[j].assetSource == assetSource
      {
        assert entries[..i + 1][..i] == entries[..i];
        match entries[i].1
        case AssetData(data) =>
          var proxy := NewProxy(data);
          proxies := proxies + [proxy];
        case Scalar(_) =>
          assert AssetRecords(entries).None? by {
            assert !entries[i].1.AssetData?;
          }
          return Failure(TypeError);
      }
      assert entries[..|entries|] == entries;
      r := Success(proxies);
    }
  }
}
