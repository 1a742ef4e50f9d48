/**
 * The asset source: its identifier and options, and the client and the
 * asset proxy repository it builds on first use and keeps.
 */
module AssetSource {
  import opened Wrappers
  import opened QueryExecution
  import opened MediaWikiApi

  /**
   * The asset source options, each under its path, with the type the
   * settings give it. An absent option is None, as `getOption` returns null.
   */
  datatype Options = Options(
    labelText: Option<string>,
    domain: string,
    useQueryResultCache: Option<bool>,
    searchStrategy: Option<string>,
    articleLimit: Option<int>,
    excludedIdentifierPatterns: Option<seq<string>>,
    copyRightNoticeTemplate: Option<string>)

  /** The imported-asset records: (asset source, remote identifier) to local asset identifier. */
  class ImportedAssetRepository {
    var localAssetIdentifiers: map<(string, string), string>

    constructor(localAssetIdentifiers: map<(string, string), string>)
      ensures this.localAssetIdentifiers == localAssetIdentifiers
    {
      this.localAssetIdentifiers := localAssetIdentifiers;
    }

    /** `findOneByAssetSourceIdentifierAndRemoteAssetIdentifier`: the local identifier of the record, if there is one. */
    function FindOne(assetSourceIdentifier: string, remoteAssetIdentifier: string): (r: Option<string>)
      reads this
      ensures r.Some? <==> (assetSourceIdentifier, remoteAssetIdentifier) in localAssetIdentifiers
      ensures r.Some? ==> r.value == localAssetIdentifiers[(assetSourceIdentifier, remoteAssetIdentifier)]
    {
      var key := (assetSourceIdentifier, remoteAssetIdentifier);
      if key in localAssetIdentifiers then Some(localAssetIdentifiers[key]) else None
    }
  }

  /** The proxy repository, bound to its asset source; its queries are not part of this model. */
  class MediaWikiAssetProxyRepository {
    const assetSource: MediaWikiAssetSource

    constructor(assetSource: MediaWikiAssetSource)
      ensures this.assetSource == assetSource
    {
      this.assetSource := assetSource;
    }
  }

  /** A template evaluator: the template and the context variables give the text. */
  type EelEvaluator = (string, map<string, string>) -> string

  class MediaWikiAssetSource {
    const assetSourceIdentifier: string
    const assetSourceOptions: Options
    /** The services the framework injects: query result cache, HTTP client, imported assets, Eel. */
    const queryResultCache: QueryResultCache
    const network: Network
    const importedAssetRepository: ImportedAssetRepository
    const eelEvaluator: EelEvaluator
    var mediaWikiClient: Option<MediaWikiClient>
    var assetProxyRepository: Option<MediaWikiAssetProxyRepository>

    /** A client, once built, is the one its options describe; a repository, once built, is bound to this source. */
    ghost predicate Valid()
      reads this
    {
      && (mediaWikiClient.Some? ==> IsOwnClient(mediaWikiClient.value))
      && (assetProxyRepository.Some? ==> assetProxyRepository.value.assetSource == this)
    }

    /** Built from the `domain` option, `useQueryResultCache` defaulting to false, on the injected services. */
    predicate IsOwnClient(c: MediaWikiClient) {
      && c.domain == assetSourceOptions.domain
      && c.useQueryResultCache == assetSourceOptions.useQueryResultCache.GetOr(false)
      && c.queryResultCache == queryResultCache
      && c.network == network
    }

    constructor(assetSourceIdentifier: string, assetSourceOptions: Options, queryResultCache: QueryResultCache,
                network: Network, importedAssetRepository: ImportedAssetRepository, eelEvaluator: EelEvaluator)
      ensures this.assetSourceIdentifier == assetSourceIdentifier && this.assetSourceOptions == assetSourceOptions
      ensures this.queryResultCache == queryResultCache && this.network == network
      ensures this.importedAssetRepository == importedAssetRepository && this.eelEvaluator == eelEvaluator
      ensures mediaWikiClient == None && assetProxyRepository == None && Valid()
    {
      this.assetSourceIdentifier := assetSourceIdentifier;
      this.assetSourceOptions := assetSourceOptions;
      this.queryResultCache := queryResultCache;
      this.network := network;
      this.importedAssetRepository := importedAssetRepository;
      this.eelEvaluator := eelEvaluator;
      mediaWikiClient := None;
      assetProxyRepository := None;
    }

    /** The endpoint every client of this source queries. */
    function Endpoint(): Endpoint {
      QueryExecution.Endpoint(assetSourceOptions.domain, assetSourceOptions.useQueryResultCache.GetOr(false), network.server)
    }

    ghost function World(): World
      reads queryResultCache, network
    {
      QueryExecution.World(queryResultCache.entries, network.sent)
    }

    function GetIdentifier(): (id: string)
      ensures id == assetSourceIdentifier
    {
      assetSourceIdentifier
    }

    /** `label ?? domain`. */
    function GetLabel(): (l: string)
      ensures assetSourceOptions.labelText.Some? ==> l == assetSourceOptions.labelText.value
      ensures assetSourceOptions.labelText.None? ==> l == assetSourceOptions.domain
    {
      assetSourceOptions.labelText.GetOr(assetSourceOptions.domain)
    }

    /**
     * The template of the copyright notice: the `copyRightNoticeTemplate`
     * option, '' when it is not set. The source class does not declare this
     * getter although the asset proxy calls it; see README, Findings. The ''
     * default is an assumption of this corrected getter: `getOption` gives
     * null for a missing option, which the string-typed evaluator rejects.
     */
    function GetCopyRightNoticeTemplate(): (t: string)
      ensures assetSourceOptions.copyRightNoticeTemplate.Some? ==> t == assetSourceOptions.copyRightNoticeTemplate.value
      ensures assetSourceOptions.copyRightNoticeTemplate.None? ==> t == ""
    {
      assetSourceOptions.copyRightNoticeTemplate.GetOr("")
    }

    /** The source never accepts uploads. */
    function IsReadOnly(): (b: bool)
      ensures b
    {
      true
    }

    /** The repository is built on the first call; every later call returns that same object. */
    method GetAssetProxyRepository() returns (r: MediaWikiAssetProxyRepository)
      requires Valid()
      modifies this`assetProxyRepository
      ensures Valid() && assetProxyRepository == Some(r) && r.assetSource == this
      ensures old(assetProxyRepository).Some? ==> r == old(assetProxyRepository).value
      ensures old(assetProxyRepository).None? ==> fresh(r)
    {
      if assetProxyRepository.None? {
        var repository := new MediaWikiAssetProxyRepository(this);
        assetProxyRepository := Some(repository);
      }
      r := assetProxyRepository.value;
    }

    /** The client is built on the first call from the options; every later call returns that same object. */
    method GetMediaWikiClient() returns (c: MediaWikiClient)
      requires Valid()
      modifies this`mediaWikiClient
      ensures Valid() && mediaWikiClient == Some(c) && IsOwnClient(c)
      ensures old(mediaWikiClient).Some? ==> c == old(mediaWikiClient).value
      ensures old(mediaWikiClient).None? ==> fresh(c)
    {
      if mediaWikiClient.None? {
        var client := new MediaWikiClient(assetSourceOptions.domain, assetSourceOptions.useQueryResultCache.GetOr(false),
                                          queryResultCache, network);
        mediaWikiClient := Some(client);
      }
      c := mediaWikiClient.value;
    }
  }

  /** `createFromConfiguration`: a new source, as the constructor builds it. */
  method CreateFromConfiguration(assetSourceIdentifier: string, assetSourceOptions: Options, queryResultCache: QueryResultCache,
                                 network: Network, importedAssetRepository: ImportedAssetRepository, eelEvaluator: EelEvaluator)
    returns (s: MediaWikiAssetSource)
    ensures fresh(s)
    ensures s.assetSourceIdentifier == assetSourceIdentifier && s.assetSourceOptions == assetSourceOptions
    ensures s.queryResultCache == queryResultCache && s.network == network
    ensures s.importedAssetRepository == importedAssetRepository && s.eelEvaluator == eelEvaluator
    ensures s.mediaWikiClient == None && s.assetProxyRepository == None && s.Valid()
  {
    s := new MediaWikiAssetSource(assetSourceIdentifier, assetSourceOptions, queryResultCache, network,
                                  importedAssetRepository, eelEvaluator);
  }

  /** The client's endpoint is the source's: the client queries what the options say. */
  lemma OwnClientEndpoint(s: MediaWikiAssetSource, c: MediaWikiClient)
    requires s.IsOwnClient(c)
    ensures c.Endpoint() == s.Endpoint()
  {
  }
}
