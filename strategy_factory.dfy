/** The factory that turns the configured strategy class name into a strategy bound to a source. */
module StrategyFactory {
  import opened Wrappers
  import opened PhpStrings
  import opened Failures
  import opened AssetSource
  import opened SearchStrategies

  /** The code for a missing or empty `searchStrategy` option. */
  const UndefinedStrategyCode: int := 1526800804

  /** The code for a `searchStrategy` option that names no known class. */
  const UnknownStrategyCode: int := 1526800805

  const DirectImageSearchStrategyClass: string := "DL\\AssetSource\\MediaWiki\\Api\\SearchStrategies\\DirectImageSearchStrategy"

  const ArticleSearchStrategyClass: string := "DL\\AssetSource\\MediaWiki\\Api\\SearchStrategies\\ArticleSearchStrategy"

  datatype StrategyKind = DirectImageSearch | ArticleSearch

  function ClassName(k: StrategyKind): string {
    match k
    case DirectImageSearch => DirectImageSearchStrategyClass
    case ArticleSearch => ArticleSearchStrategyClass
  }

  /** PHP `empty()` on the option: not set, '' or '0'. */
  predicate IsUndefined(strategyClass: Option<string>) {
    strategyClass.None? || IsEmptyString(strategyClass.value)
  }

  /**
   * The validation of `getInstanceForAssetSource`: an undefined name fails
   * with 1526800804 before any lookup; a name that is no strategy class
   * fails with 1526800805; otherwise the named class.
   */
  function ResolveStrategy(strategyClass: Option<string>): (r: Result<StrategyKind, Error>)
    ensures r == Failure(InvalidConfiguration(UndefinedStrategyCode)) <==> IsUndefined(strategyClass)
    ensures r == Failure(InvalidConfiguration(UnknownStrategyCode)) <==>
      !IsUndefined(strategyClass) && strategyClass.value != DirectImageSearchStrategyClass && strategyClass.value != ArticleSearchStrategyClass
    ensures r.Success? ==> strategyClass == Some(ClassName(r.value))
  {
    if IsUndefined(strategyClass) then Failure(InvalidConfiguration(UndefinedStrategyCode))
    else if strategyClass.value == DirectImageSearchStrategyClass then Success(DirectImageSearch)
    else if strategyClass.value == ArticleSearchStrategyClass then Success(ArticleSearch)
    else Failure(InvalidConfiguration(UnknownStrategyCode))
  }

  /** Each strategy class name resolves to its own kind. */
  lemma ResolveClassName(k: StrategyKind)
    ensures ResolveStrategy(Some(ClassName(k))) == Success(k)
  {
  }

  function KindOf(s: SearchStrategy): StrategyKind {
    match s
    case Direct(_) => DirectImageSearch
    case Article(_) => ArticleSearch
  }

  /**
   * `getInstanceForAssetSource($assetSource)`: the error of the validation,
   * or a new strategy of the named class bound to the source and its client.
   */
  method GetInstanceForAssetSource(assetSource: MediaWikiAssetSource) returns (r: Result<SearchStrategy, Error>)
    requires assetSource.Valid()
    modifies assetSource`mediaWikiClient
    ensures assetSource.Valid()
    ensures r.Failure? <==> ResolveStrategy(assetSource.assetSourceOptions.searchStrategy).Failure?
    ensures r.Failure? ==>
      r.error == ResolveStrategy(assetSource.assetSourceOptions.searchStrategy).error &&
      assetSource.mediaWikiClient == old(assetSource.mediaWikiClient)
    ensures r.Success? ==>
      && ResolveStrategy(assetSource.assetSourceOptions.searchStrategy) == Success(KindOf(r.value))
      && StrategySource(r.value) == assetSource
      && assetSource.mediaWikiClient == Some(StrategyClient(r.value))
      && assetSource.IsOwnClient(StrategyClient(r.value))
      && (old(assetSource.mediaWikiClient).Some? ==> StrategyClient(r.value) == old(assetSource.mediaWikiClient).value)
      && (r.value.Direct? ==> fresh(r.value.direct))
      && (r.value.Article? ==> fresh(r.value.article) && r.value.article.articleLimit == ArticleLimit(assetSource.assetSourceOptions))
  {
    var strategyClass := assetSource.assetSourceOptions.searchStrategy;
    var kind := ResolveStrategy(strategyClass);
    if kind.Failure? {
      return Failure(kind.error);
    }
    match kind.value
    case DirectImageSearch =>
      var s := new DirectImageSearchStrategy(assetSource);
      r := Success(Direct(s));
    case ArticleSearch =>
      var s := new ArticleSearchStrategy(assetSource);
      r := Success(Article(s));
  }
}
