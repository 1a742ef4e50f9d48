# MediaWiki asset source: a Dafny model

This project models the core of `DL.AssetSource.MediaWiki`. That package is a Neos asset source: it lets the Neos media library browse, search and import images from a MediaWiki site (Wikimedia Commons or any other wiki) through the MediaWiki Action API.

The model covers these parts of the package:

- **The clients** (`MediaWikiClient`, `WikimediaClient`):
  - every request URL gets `action=query` and `format=json`;
  - the query-result cache, keyed by request URL, answers a repeated query without a new request;
  - `findAll` pages through `list=allimages`;
  - `getAssetDetails` turns `query.pages` into an identifier-keyed collection of asset records.
- **The search strategies** (direct image search, article search):
  - the image titles are collected in order;
  - titles that match an exclusion glob are dropped;
  - the total is recorded before paging;
  - the page `[offset, offset + 30)` is taken, with spaces turned into underscores.
- **The strategy factory**: the two configuration errors, 1526800804 and 1526800805.
- **The asset source**: its label, and the client and proxy repository it builds on first use and then keeps.
- **The query objects** (`MediaWikiAssetProxyQuery`, `MediaWikiAssetProxyQueryResult`):
  - the query's fields and the choice `execute` makes between `findAll` and a strategy;
  - the result's cursor, which shares one `ArrayIterator` with the query result it wraps; `offsetUnset` moves that cursor the way `ArrayIterator` does.
- **The asset proxy** (`MediaWikiAssetProxy`):
  - the first-non-blank fallback over candidate metadata paths, `resolveValue`;
  - the IPTC properties, which are computed once and then kept;
  - the imported-asset lookup;
  - the casting getters.

How the model is built:

- **Responses.** Decoded JSON responses are datatypes. A page has its `title`, and its `images` and `imageinfo` when they are lists. A search hit has its `pageid` when it carries one.
- **The network.** It is a function `Server` from the request URL and the request's sequence number to a response. Two requests for the same URL may therefore get different answers. So "the cache makes a repeated query return the identical value" is a real property: it is not true without the cache.
- **State in place.** Objects whose fields the PHP code changes are classes with those fields: the DTO, the iterator and the collection, the source's lazily built members, the IPTC memo, and the query's fields. The cache and the HTTP client are also classes. Each method is proved against a pure function (`FindAllModel`, `AssetItems`, `Paged`, `ExecuteModel`, …). The properties are lemmas about those functions.

## Model

| member | source | states |
|---|---|---|
| ApiTypes.BuildQueryUrlParams | Classes/Api/MediaWikiClient.php:192-198 | The built URL keeps the domain. It carries `action=query` and `format=json` whatever the caller passed under those names. Every other parameter is the caller's. |
| ApiTypes.BuildQueryUrlKeys | Classes/Api/WikimediaClient.php:159-167 | For caller data with distinct names and no `action` or `format`, the built parameters stay distinct. They are the caller's in order, followed by `action` and `format`. |
| QueryExecution.CacheHit | Classes/Api/MediaWikiClient.php:169-174 | With the cache on, a URL already in the cache is answered from it, and no request is sent. |
| QueryExecution.CacheOffAlwaysSends | Classes/Api/MediaWikiClient.php:177-185 | With the cache off, the cache is neither read nor written. Exactly one request goes out, and its answer is returned. |
| QueryExecution.AskAll | Classes/Api/MediaWikiClient.php:165-186 | A run of queries gives one answer per URL. |
| QueryExecution.CacheEntriesPersist | Classes/Api/MediaWikiClient.php:181-183 | With the cache on, a stored entry stays stored through any later queries. Every later query for its URL gets the stored answer. |
| QueryExecution.CachedAnswersAreStable | Classes/Api/MediaWikiClient.php:169-183 | With the cache on, the same URL asked twice gets the same answer both times, even when the server would answer differently the second time. |
| QueryExecution.Network.Get | Classes/Api/MediaWikiClient.php:177-178 | One GET request: the server's answer for that URL and request number, and the URL is recorded as sent. |
| MediaWikiApi.MediaWikiClient.ExecuteQuery | Classes/Api/MediaWikiClient.php:165-186 | The answer and the new cache and request log are exactly those of the cache model, for the built URL. |
| MediaWikiApi.MediaWikiClient.CountAll | Classes/Api/MediaWikiClient.php:110-118 | One `meta=siteinfo&siprop=statistics` query. The result is its image count. |
| MediaWikiApi.MediaWikiClient.FindAll | Classes/Api/MediaWikiClient.php:83-101 | A new result whose titles, total and resulting world are those of `FindAllModel` with 30 titles per page. |
| MediaWikiApi.FindAllModelPage | Classes/Api/MediaWikiClient.php:92-99 | A page has exactly `min(perPage, n - offset)` titles for `n` listed images, so at most `perPage`, and none when the offset is at or past them. Title k is image `offset + k`, underscored. The total is the count query's answer, not the page length. |
| MediaWikiApi.MediaWikiClient.GetAssetDetails | Classes/Api/MediaWikiClient.php:128-157 | A new query result whose assets are `AssetItems` of the answer's pages. Its total is the input's total, passed through. Its iterator is on the first asset. |
| MediaWikiApi.CollectAssetItems | Classes/Api/MediaWikiClient.php:144-154 | The `$items` loop builds exactly `AssetItems(pages)`. |
| MediaWikiApi.AddAssetItem | Classes/Api/MediaWikiClient.php:145-153 | A page without `imageinfo` leaves the items unchanged. Any other page stores its record under its underscored title. |
| MediaWikiApi.AssetItemsLookup | Classes/Api/MediaWikiClient.php:144-154 | The asset under an identifier is the record of the last page that has `imageinfo` and has that underscored title. There is none when no page does. |
| MediaWikiApi.LastContributor | Classes/Api/MediaWikiClient.php:149-150 | It gives the last page contributing under an identifier: no later page contributes under it. When it gives none, no page contributes. |
| MediaWikiApi.AssetItemsShape | Classes/Api/MediaWikiClient.php:149-153 | The identifiers are distinct, and there are no more assets than pages. Each asset's `identifier` is its key, and each asset has a `filename`. |
| MediaWikiApi.FilenameWithoutColon | Classes/Api/MediaWikiClient.php:153 | A title without a `:` has a null filename. |
| MediaWikiApi.FilenameAfterFirstColon | Classes/Api/MediaWikiClient.php:153 | The filename of `ns:name`, and of `ns:name:more`, is `name`. |
| MediaWikiApi.AddExpandedTitles | Classes/Api/MediaWikiClient.php:96-98 | It appends one underscored title per image, in order. |
| WikimediaApi.WikimediaClient.ExecuteQuery | Classes/Api/WikimediaClient.php:145-153 | Every call sends exactly one request, for the built URL, and returns its answer. There is no cache. |
| WikimediaApi.WikimediaClient.CountAll | Classes/Api/WikimediaClient.php:92-100 | It returns the image count from the statistics query. |
| WikimediaApi.WikimediaClient.FindAll | Classes/Api/WikimediaClient.php:66-84 | The same listing as `FindAllModel`, with 20 titles per page. |
| WikimediaApi.WikimediaClient.GetAssetDetails | Classes/Api/WikimediaClient.php:109-138 | Distinct-keyed assets built exactly as the MediaWiki client builds them. The input's total is passed through. |
| Dto.ImageSearchResult.constructor | Classes/Api/Dto/ImageSearchResult.php:26-30 | It keeps the given titles in order and the given total. |
| Dto.ImageSearchResult.Empty | Classes/Api/Dto/ImageSearchResult.php:26-30 | The default construction: no titles and a total of 0. |
| Dto.ImageSearchResult.GetTotalResults | Classes/Api/Dto/ImageSearchResult.php:35-38 | It returns the stored total, whatever the number of titles. |
| Dto.ImageSearchResult.SetTotalResults | Classes/Api/Dto/ImageSearchResult.php:43-46 | Only the total changes. |
| Dto.ImageSearchResult.GetImageTitles | Classes/Api/Dto/ImageSearchResult.php:51-54 | It returns the stored titles. |
| Dto.ImageSearchResult.AddImageTitle | Classes/Api/Dto/ImageSearchResult.php:59-61 | The title is appended at the end. The earlier titles and the total are unchanged. |
| QueryResults.MediaWikiQueryResult.constructor | Classes/Api/MediaWikiQueryResult.php:34-39 | The assets keep their keys and order. The iterator is over that same collection, at its first entry. The total is the given one. |
| QueryResults.MediaWikiQueryResult.GetAssets | Classes/Api/MediaWikiQueryResult.php:44-47 | The same collection object on every call. |
| QueryResults.MediaWikiQueryResult.GetAssetIterator | Classes/Api/MediaWikiQueryResult.php:52-55 | The same iterator object on every call, so all callers share its position. |
| QueryResults.MediaWikiQueryResult.GetTotalResults | Classes/Api/MediaWikiQueryResult.php:60-63 | The constructor's total, not the number of assets. |
| QueryResults.AssetIterator.Current | Classes/AssetSource/MediaWikiAssetProxyQueryResult.php:92 | Some element exactly while the cursor is valid, and that element is stored under the current key. |
| QueryResults.AssetIterator.Key | Classes/AssetSource/MediaWikiAssetProxyQueryResult.php:120 | Some key exactly while the cursor is valid, and that key is present. |
| QueryResults.AssetIterator.Next | Classes/AssetSource/MediaWikiAssetProxyQueryResult.php:109 | The cursor moves one entry on, but not past the end. |
| QueryResults.AssetIterator.Rewind | Classes/AssetSource/MediaWikiAssetProxyQueryResult.php:143 | The cursor goes back to the first entry. |
| QueryResults.AssetIterator.OffsetGet | Classes/AssetSource/MediaWikiAssetProxyQueryResult.php:174 | The element stored under the key, or nothing exactly when the key is absent. |
| QueryResults.AssetIterator.OffsetSet | Classes/AssetSource/MediaWikiAssetProxyQueryResult.php:189-192 | It writes through to the collection: an existing key keeps its place, a new key is appended, and the cursor stays where it is. |
| QueryResults.AssetIterator.OffsetUnset | Classes/AssetSource/MediaWikiAssetProxyQueryResult.php:203-206 | It removes the key from the collection. If an earlier entry is removed, the cursor keeps standing on the same entry. If the current entry is removed, the cursor moves on to the next one. |
| Assoc.GetPut | Classes/Api/MediaWikiClient.php:150-153 | After storing under a key, that key reads the new value. Every other key reads what it read before. |
| Assoc.PutKeepsKeysDistinct | Classes/Api/MediaWikiClient.php:150 | An ordered PHP array stays duplicate-free when a value is stored. An existing key keeps its position, and a new key goes last. |
| Assoc.GetRemove | Classes/AssetSource/MediaWikiAssetProxyQueryResult.php:205 | After an unset, the key is absent and every other key is unchanged. |
| Assoc.RemoveKeepsKeysDistinct | Classes/AssetSource/MediaWikiAssetProxyQueryResult.php:205 | Unsetting keeps the keys distinct. |
| TitlePipeline.ExcludedByPattern | Classes/Api/SearchStrategies/AbstractSearchStrategy.php:57-62 | Trying the patterns in order excludes an image exactly when one of the patterns matches it. |
| TitlePipeline.FilteredMembership | Classes/Api/SearchStrategies/AbstractSearchStrategy.php:56-63 | An image survives the filter exactly when it is in the input and no exclusion pattern matches it. |
| TitlePipeline.FilteredIsSubsequence | Classes/Api/SearchStrategies/AbstractSearchStrategy.php:56-63 | The filtered list is a subsequence of the input: order is kept and nothing is added. |
| TitlePipeline.Filtered | Classes/Api/SearchStrategies/AbstractSearchStrategy.php:56-63 | The filtered list is never longer than the input. |
| TitlePipeline.FilteredWithoutPatterns | Classes/Api/SearchStrategies/AbstractSearchStrategy.php:57-62 | With no patterns, the list is unchanged. |
| TitlePipeline.FilteredIdempotent | Classes/Api/SearchStrategies/AbstractSearchStrategy.php:56-63 | Filtering an already filtered list changes nothing. |
| TitlePipeline.FilteredAppend | Classes/Api/SearchStrategies/AbstractSearchStrategy.php:56 | The filter decides element by element, so filtering a concatenation filters each part. |
| TitlePipeline.Slice | Classes/Api/SearchStrategies/DirectImageSearchStrategy.php:57 | `array_slice` with a non-negative offset gives `min(length, n - offset)` elements, none past the end. Element k is input element `offset + k`. |
| TitlePipeline.PageTitlesAt | Classes/Api/SearchStrategies/ArticleSearchStrategy.php:90-95 | A page holds exactly `min(perPage, n - offset)` titles for `n` filtered images, so at most `perPage`, and none when the offset is at or past them. It is full when enough images follow. Title k is filtered image `offset + k`, underscored. |
| TitlePipeline.PageTitlesHaveNoSpaces | Classes/Api/SearchStrategies/DirectImageSearchStrategy.php:59-61 | No returned title contains a space. |
| Glob.StarMatchesEverything | Classes/Api/SearchStrategies/AbstractSearchStrategy.php:58 | The pattern `*` matches every title. |
| Glob.LiteralMatchesItself | Classes/Api/SearchStrategies/AbstractSearchStrategy.php:58 | A pattern without wildcards matches exactly the title it spells. |
| Glob.PrefixStarMatches | Classes/Api/SearchStrategies/AbstractSearchStrategy.php:58 | A pattern `p*` matches every title that starts with `p`. |
| SearchStrategies.IsKept | Classes/Api/SearchStrategies/AbstractSearchStrategy.php:56-63 | The callback's loop returns true exactly when no pattern matches the image. |
| SearchStrategies.FilterExcludedImages | Classes/Api/SearchStrategies/AbstractSearchStrategy.php:52-64 | The caller's list is replaced by exactly `Filtered(images, patterns)`. |
| SearchStrategies.PagedOutcome | Classes/Api/SearchStrategies/DirectImageSearchStrategy.php:55-63 | The total is the filtered count before paging. The titles are the filtered images from the offset on, exactly `min(30, total - offset)` of them and underscored, and none when the offset is at or past the total. |
| SearchStrategies.PageResult | Classes/Api/SearchStrategies/DirectImageSearchStrategy.php:55-63 | A new DTO holding exactly the `Paged` titles and total. |
| SearchStrategies.FirstPageOnly | Classes/Api/SearchStrategies/DirectImageSearchStrategy.php:51-53 | Only the first page's images count: the pages after it change neither the result nor whether it throws. |
| SearchStrategies.DirectOutcome | Classes/Api/SearchStrategies/DirectImageSearchStrategy.php:46-63 | When `query.pages` is not a list, or the first page has no `images`, the result has no titles and a total of 0. It throws a `TypeError` exactly when at least one exclusion pattern is set and an image of the first page has no `title`: the null reaches `fnmatch` in the strictly typed callback of AbstractSearchStrategy.php. Otherwise it is the paged outcome of the first page's titles. |
| SearchStrategies.DirectOutcomeWithoutPatterns | Classes/Api/SearchStrategies/DirectImageSearchStrategy.php:50-63 | Without patterns the search always succeeds. Every image of the first page counts towards the total, and an untitled one is listed as '' (what `str_replace` makes of null). |
| SearchStrategies.DirectImageSearchStrategy.Search | Classes/Api/SearchStrategies/DirectImageSearchStrategy.php:24-33 | One `titles=term&prop=images&imlimit=500` query. The outcome or the error is that of its answer, and the world is the one after the query in both cases. |
| SearchStrategies.DirectImageSearchStrategy.BuildImageSearchResult | Classes/Api/SearchStrategies/DirectImageSearchStrategy.php:40-66 | A new result holding exactly `DirectOutcome` of the answer's pages at the offset, or its `TypeError`. |
| SearchStrategies.DirectImageSearchStrategy.constructor | Classes/Api/SearchStrategies/AbstractSearchStrategy.php:43-47 | Bound to the source, with the source's own client: the existing one, or one newly built. |
| SearchStrategies.ArticleLimit | Classes/Api/SearchStrategies/ArticleSearchStrategy.php:27 | The `articleLimit` option, or 10 when it is absent. |
| SearchStrategies.ArticleSearchStrategy.InitializeObject | Classes/Api/SearchStrategies/ArticleSearchStrategy.php:25-28 | It sets the article limit to `ArticleLimit` of the options. |
| SearchStrategies.ArticleSearchStrategy.constructor | Classes/Api/SearchStrategies/AbstractSearchStrategy.php:43-47 | Bound to the source and its client. The article limit is set as `initializeObject` sets it. |
| SearchStrategies.PageIdsMembership | Classes/Api/SearchStrategies/ArticleSearchStrategy.php:61-65 | An id is collected exactly when some hit carries it as `pageid`. There are never more ids than hits. |
| SearchStrategies.CollectPageIds | Classes/Api/SearchStrategies/ArticleSearchStrategy.php:58-65 | The `$documentIds` loop yields exactly `PageIds(hits)`, in hit order. |
| SearchStrategies.PresentTitlesMembership | Classes/Api/SearchStrategies/ArticleSearchStrategy.php:82-86 | A title is collected exactly when some image of the page has that `title`. |
| SearchStrategies.ArticleImageTitlesMembership | Classes/Api/SearchStrategies/ArticleSearchStrategy.php:79-88 | A title is collected exactly when some page lists an image with that title. Pages without an `images` list contribute nothing. |
| SearchStrategies.CollectArticleImages | Classes/Api/SearchStrategies/ArticleSearchStrategy.php:79-88 | The nested loops yield exactly `ArticleImageTitles(pages)`, page after page. |
| SearchStrategies.ArticleOutcome | Classes/Api/SearchStrategies/ArticleSearchStrategy.php:73-77 | When `query.pages` is not a list, the result has no titles and a total of 0. |
| SearchStrategies.ArticleSearchStrategy.Search | Classes/Api/SearchStrategies/ArticleSearchStrategy.php:37-46 | The `list=search&srsearch=term&srlimit=limit` query, then the images query. The result is `ArticleSearchModel`. |
| SearchStrategies.ArticleSearchStrategy.BuildImageSearchResult | Classes/Api/SearchStrategies/ArticleSearchStrategy.php:55-100 | Always one images query, for the hits' page ids joined by `|`. The result holds exactly `ArticleOutcome` of its pages. |
| SearchStrategies.Search | Classes/Api/SearchStrategies/SearchStrategyInterface.php:22 | Dispatch to the strategy's own `search`, with its model. The article strategy never throws. |
| StrategyFactory.ResolveStrategy | Classes/Api/SearchStrategies/SearchStrategyFactory.php:25-35 | Code 1526800804 exactly when the option is missing, '' or '0', which is checked first. Code 1526800805 exactly when it is set but names neither strategy. Otherwise the kind whose class the option names. |
| StrategyFactory.ResolveClassName | Classes/Api/SearchStrategies/SearchStrategyFactory.php:31-35 | Each strategy class name resolves to its own strategy. |
| StrategyFactory.GetInstanceForAssetSource | Classes/Api/SearchStrategies/SearchStrategyFactory.php:23-36 | It fails exactly when the validation fails, with its error, and builds nothing then. Otherwise it returns a new strategy of the named class, bound to the source and to the source's client. |
| AssetSource.MediaWikiAssetSource.constructor | Classes/AssetSource/MediaWikiAssetSource.php:46-50 | It keeps the identifier and the options. No client and no repository exist yet. |
| AssetSource.CreateFromConfiguration | Classes/AssetSource/MediaWikiAssetSource.php:60-63 | A new source, exactly as the constructor builds it. |
| AssetSource.MediaWikiAssetSource.GetIdentifier | Classes/AssetSource/MediaWikiAssetSource.php:71-74 | The constructor's identifier. |
| AssetSource.MediaWikiAssetSource.GetLabel | Classes/AssetSource/MediaWikiAssetSource.php:79-82 | The `label` option when it is set, otherwise the `domain` option. |
| AssetSource.MediaWikiAssetSource.GetAssetProxyRepository | Classes/AssetSource/MediaWikiAssetSource.php:87-94 | Built once, bound to this source. Every later call returns that same object. |
| AssetSource.MediaWikiAssetSource.GetMediaWikiClient | Classes/AssetSource/MediaWikiAssetSource.php:99-109 | Built once from `domain`, with `useQueryResultCache` defaulting to false. Every later call returns the same object. |
| AssetSource.MediaWikiAssetSource.IsOwnClient | Classes/AssetSource/MediaWikiAssetSource.php:102-105 | A client built from the source's options. |
| AssetSource.OwnClientEndpoint | Classes/AssetSource/MediaWikiAssetSource.php:102-105 | Such a client queries the domain and cache setting the options name. |
| AssetSource.MediaWikiAssetSource.IsReadOnly | Classes/AssetSource/MediaWikiAssetSource.php:123-126 | Always true. |
| AssetSource.MediaWikiAssetSource.GetCopyRightNoticeTemplate | Classes/AssetSource/MediaWikiAssetProxy.php:258 | The corrected template getter: the `copyRightNoticeTemplate` option, or '' when it is not set. The '' default is an assumption of the corrected getter: `getOption` would give null, which `evaluateEelExpression` would reject. See Findings. |
| AssetSource.ImportedAssetRepository.FindOne | Classes/AssetSource/MediaWikiAssetProxy.php:76 | The local identifier recorded for (source identifier, remote identifier), or none exactly when there is no record. |
| AssetProxy.ResolveValueOf | Classes/AssetSource/MediaWikiAssetProxy.php:265-274 | The only failure is a TypeError, which strict types make `trim` raise. |
| AssetProxy.ResolveValueFirst | Classes/AssetSource/MediaWikiAssetProxy.php:267-270 | When every earlier candidate is null or blank and this one is a non-blank string, the result is this one with its tags stripped. |
| AssetProxy.ResolveValueNone | Classes/AssetSource/MediaWikiAssetProxy.php:273 | When every candidate is null or blank, the result is ''. |
| AssetProxy.ResolveValueTypeError | Classes/AssetSource/MediaWikiAssetProxy.php:268 | When every earlier candidate is skipped and this one is neither null nor a string, the call fails with a TypeError. |
| AssetProxy.ResolveValueOfText | Classes/AssetSource/MediaWikiAssetProxy.php:265-274 | On a record of strings and nulls, the call never fails. |
| AssetProxy.MediaWikiAssetProxy.ResolveValue | Classes/AssetSource/MediaWikiAssetProxy.php:265-274 | The loop with its early return computes exactly `ResolveValueOf`. |
| AssetProxy.MediaWikiAssetProxy.GetLabel | Classes/AssetSource/MediaWikiAssetProxy.php:99-102 | It resolves the object name, then the description. |
| AssetProxy.LabelAndTitlePreference | Classes/AssetSource/MediaWikiAssetProxy.php:101 | With both fields present, the label is the object name and the IPTC Title is the description. With only one present, both are that one. |
| AssetProxy.LicenseUrlFallback | Classes/AssetSource/MediaWikiAssetProxy.php:253 | With no licence URL, the copyright context's `LicenseUrl` is `descriptionurl`. |
| AssetProxy.CopyrightContext | Classes/AssetSource/MediaWikiAssetProxy.php:252-256 | Exactly the variables LicenseUrl, Title and Creator, each being the resolved value of its paths. |
| AssetProxy.CompileCopyrightNoticeAsWritten | Classes/AssetSource/MediaWikiAssetProxy.php:250-259 | As written, it always fails. |
| AssetProxy.IptcPropertiesAsWrittenFail | Classes/AssetSource/MediaWikiAssetProxy.php:233-244 | As written, `getIptcProperties` fails on every record. On a record of text, the failure is the undeclared `getCopyRightNoticeTemplate`. |
| AssetProxy.CompileCopyrightNotice | Classes/AssetSource/MediaWikiAssetProxy.php:250-259 | Corrected: it succeeds exactly when the context resolves. The notice is the template evaluated with that context. |
| AssetProxy.MediaWikiAssetProxy.CompileCopyrightNoticeOfAsset | Classes/AssetSource/MediaWikiAssetProxy.php:250-259 | The method computes exactly `CompileCopyrightNotice`, with the source's template and evaluator. |
| AssetProxy.IptcPropertiesOf | Classes/AssetSource/MediaWikiAssetProxy.php:236-240 | On success, the keys are exactly Title, Creator and CopyrightNotice. |
| AssetProxy.IptcPropertiesValues | Classes/AssetSource/MediaWikiAssetProxy.php:236-256 | Title and Creator are the resolved fields. The notice is the template evaluated with those same values and the licence URL. On a record of text, the properties always exist. |
| AssetProxy.MediaWikiAssetProxy.GetIptcProperties | Classes/AssetSource/MediaWikiAssetProxy.php:233-244 | Corrected: the first successful call computes the properties and keeps them. Later calls return the kept properties unchanged. What is kept always equals what the asset's data gives. |
| AssetProxy.MediaWikiAssetProxy.HasIptcProperty | Classes/AssetSource/MediaWikiAssetProxy.php:210-213 | Corrected: true exactly when the property exists and is neither '' nor '0'. |
| AssetProxy.MediaWikiAssetProxy.GetIptcProperty | Classes/AssetSource/MediaWikiAssetProxy.php:222-225 | Corrected: the property's value, or '' for any other name. |
| AssetProxy.MediaWikiAssetProxy.constructor | Classes/AssetSource/MediaWikiAssetProxy.php:72-77 | It keeps the data and the source, and looks up the imported asset under (source identifier, `(string)` of the identifier). |
| AssetProxy.MediaWikiAssetProxy.GetAssetSource | Classes/AssetSource/MediaWikiAssetProxy.php:82-85 | The proxy's source. |
| AssetProxy.MediaWikiAssetProxy.GetProperty | Classes/AssetSource/MediaWikiAssetProxy.php:198-201 | The value under the path, or null when there is none. |
| AssetProxy.MediaWikiAssetProxy.GetIdentifier | Classes/AssetSource/MediaWikiAssetProxy.php:90-93 | A string cast of `identifier`: a string stays itself, and null gives ''. |
| AssetProxy.MediaWikiAssetProxy.GetFilename | Classes/AssetSource/MediaWikiAssetProxy.php:107-110 | A string cast of `filename`. |
| AssetProxy.MediaWikiAssetProxy.GetFileSize | Classes/AssetSource/MediaWikiAssetProxy.php:123-126 | An int cast of `size`: an integer stays itself, and null gives 0. |
| AssetProxy.MediaWikiAssetProxy.GetWidthInPixels | Classes/AssetSource/MediaWikiAssetProxy.php:139-142 | An int cast of `width`. |
| AssetProxy.MediaWikiAssetProxy.GetHeightInPixels | Classes/AssetSource/MediaWikiAssetProxy.php:147-150 | An int cast of `height`. |
| AssetProxy.NumericFieldCast | Classes/AssetSource/MediaWikiAssetProxy.php:123-150 | A field holding an integer's decimal text casts back to that integer. |
| AssetProxy.MediaWikiAssetProxy.GetThumbnailUri | Classes/AssetSource/MediaWikiAssetProxy.php:155-158 | The text of `thumburl`. |
| AssetProxy.MediaWikiAssetProxy.GetPreviewUri | Classes/AssetSource/MediaWikiAssetProxy.php:163-166 | The text of `url`. |
| AssetProxy.MediaWikiAssetProxy.GetLocalAssetIdentifier | Classes/AssetSource/MediaWikiAssetProxy.php:179-182 | The imported asset's local identifier, or '' when none was found. |
| AssetProxy.MediaWikiAssetProxy.IsImported | Classes/AssetSource/MediaWikiAssetProxy.php:189-192 | True exactly when an imported-asset record was found. |
| AssetProxy.KeyedAssetIdentifier | Classes/AssetSource/MediaWikiAssetProxy.php:90-93 | A proxy over an asset from the details query has that asset's key as its identifier. |
| AssetProxyQuery.MediaWikiAssetProxyQuery.constructor | Classes/AssetSource/MediaWikiAssetProxyQuery.php:35-53 | A new query has limit 20, offset 0 and search term ''. |
| AssetProxyQuery.MediaWikiAssetProxyQuery.SetOffset | Classes/AssetSource/MediaWikiAssetProxyQuery.php:58-61 | It sets the offset and changes nothing else. |
| AssetProxyQuery.MediaWikiAssetProxyQuery.GetOffset | Classes/AssetSource/MediaWikiAssetProxyQuery.php:66-69 | The offset last set. |
| AssetProxyQuery.MediaWikiAssetProxyQuery.SetLimit | Classes/AssetSource/MediaWikiAssetProxyQuery.php:74-77 | It sets the limit and changes nothing else. |
| AssetProxyQuery.MediaWikiAssetProxyQuery.GetLimit | Classes/AssetSource/MediaWikiAssetProxyQuery.php:82-85 | The limit last set. |
| AssetProxyQuery.MediaWikiAssetProxyQuery.GetSearchTerm | Classes/AssetSource/MediaWikiAssetProxyQuery.php:90-93 | The term last set. |
| AssetProxyQuery.MediaWikiAssetProxyQuery.SetSearchTerm | Classes/AssetSource/MediaWikiAssetProxyQuery.php:98-101 | It sets the term and changes nothing else. |
| AssetProxyQuery.MediaWikiAssetProxyQuery.Execute | Classes/AssetSource/MediaWikiAssetProxyQuery.php:109-120 | It fails exactly when `ExecuteModel` fails, with its error; the world is then the one the selection left, which is the old one after a factory error. Otherwise it returns a new result over this query, whose assets, total and world are those of `ExecuteModel` for the stored term and offset. The limit is not an input. |
| AssetProxyQuery.MediaWikiAssetProxyQuery.SelectImages | Classes/AssetSource/MediaWikiAssetProxyQuery.php:111-116 | With an empty term, the first `findAll` page. Otherwise the factory's strategy searches at the stored offset. The titles and total, or the error, and the world are those of `SelectionModel`. A factory failure is returned with that error, and nothing is queried. |
| AssetProxyQuery.ExecuteModelFacts | Classes/AssetSource/MediaWikiAssetProxyQuery.php:111-116 | With an empty term ('' or '0'), the stored offset changes nothing (`findAll` with offset 0) and the call succeeds. It fails exactly when the term is non-empty and either the factory fails or the direct strategy throws. A factory failure carries the factory's error and leaves the world as it was; any other failure is a `TypeError`. |
| AssetProxyQuery.StrategySearchOf | Classes/AssetSource/MediaWikiAssetProxyQuery.php:114-115 | A strategy the factory built computes what its kind and the source's options say, at the stored offset. |
| AssetProxyQuery.MediaWikiAssetProxyQuery.Count | Classes/AssetSource/MediaWikiAssetProxyQuery.php:125-128 | It always fails as not implemented. |
| AssetProxyQuery.MediaWikiAssetProxyQueryResult.constructor | Classes/AssetSource/MediaWikiAssetProxyQueryResult.php:44-50 | It keeps the query, the source and the query result, and takes the query result's own iterator, which runs over the query result's own collection. |
| AssetProxyQuery.MediaWikiAssetProxyQueryResult.GetQuery | Classes/AssetSource/MediaWikiAssetProxyQueryResult.php:57-60 | A new query that is not the stored one, with the same source, limit, offset and term. Changing it leaves the stored query alone. |
| AssetProxyQuery.MediaWikiAssetProxyQueryResult.Current | Classes/AssetSource/MediaWikiAssetProxyQueryResult.php:90-99 | A new proxy over the current element exactly when that element is an array. Nothing otherwise. |
| AssetProxyQuery.MediaWikiAssetProxyQueryResult.Next | Classes/AssetSource/MediaWikiAssetProxyQueryResult.php:107-110 | It moves the shared iterator one entry on, and not past the end. |
| AssetProxyQuery.MediaWikiAssetProxyQueryResult.Key | Classes/AssetSource/MediaWikiAssetProxyQueryResult.php:118-121 | The shared iterator's key. |
| AssetProxyQuery.MediaWikiAssetProxyQueryResult.Valid | Classes/AssetSource/MediaWikiAssetProxyQueryResult.php:130-133 | True exactly while the shared iterator stands on an entry. |
| AssetProxyQuery.MediaWikiAssetProxyQueryResult.Rewind | Classes/AssetSource/MediaWikiAssetProxyQueryResult.php:141-144 | It moves the shared iterator back to the first entry. |
| AssetProxyQuery.MediaWikiAssetProxyQueryResult.OffsetExists | Classes/AssetSource/MediaWikiAssetProxyQueryResult.php:158-161 | True exactly when the key is present. |
| AssetProxyQuery.MediaWikiAssetProxyQueryResult.OffsetGet | Classes/AssetSource/MediaWikiAssetProxyQueryResult.php:172-175 | A new proxy over the record under the key. A missing key or a non-array element is a TypeError. |
| AssetProxyQuery.MediaWikiAssetProxyQueryResult.OffsetSet | Classes/AssetSource/MediaWikiAssetProxyQueryResult.php:189-192 | It writes into the query result's own collection (`mediaWikiQueryResult.assets`, the iterator's storage): an existing key keeps its place, a new key is appended. The cursor does not move. |
| AssetProxyQuery.MediaWikiAssetProxyQueryResult.OffsetUnset | Classes/AssetSource/MediaWikiAssetProxyQueryResult.php:203-206 | It removes the key from the query result's own collection (`mediaWikiQueryResult.assets`, the iterator's storage), and moves the shared cursor as `ArrayIterator` does. Removing an earlier entry keeps the cursor on the same entry, one position lower. Removing the current entry leaves the position and puts the next entry, or nothing, under the cursor. Removing a later or absent key leaves the position. |
| AssetProxyQuery.MediaWikiAssetProxyQueryResult.Count | Classes/AssetSource/MediaWikiAssetProxyQueryResult.php:217-220 | The query result's total, not the number of entries held. |
| AssetProxyQuery.FirstAsWritten | Classes/AssetSource/MediaWikiAssetProxyQueryResult.php:67-70 | As written, it succeeds exactly when there is an array under key "0". |
| AssetProxyQuery.FirstAsWrittenFailsOnTitles | Classes/AssetSource/MediaWikiAssetProxyQueryResult.php:69 | A non-empty result without key "0" makes `getFirst` fail. |
| AssetProxyQuery.FirstAsWrittenCounterexample | Classes/AssetSource/MediaWikiAssetProxyQueryResult.php:69 | On one asset under `File:Example.jpg`, the corrected `First` gives it, while the code as written fails. |
| AssetProxyQuery.First | Classes/AssetSource/MediaWikiAssetProxyQueryResult.php:62-70 | Corrected: nothing exactly for an empty result. Otherwise the record of the entry at the first position. |
| AssetProxyQuery.FirstOfKeyedAssets | Classes/AssetSource/MediaWikiAssetProxyQueryResult.php:62-70 | On the assets of a details query, `First` gives the first asset. |
| AssetProxyQuery.MediaWikiAssetProxyQueryResult.GetFirst | Classes/AssetSource/MediaWikiAssetProxyQueryResult.php:62-70 | Corrected: a new proxy over `First` of the collection, or nothing for an empty result. |
| AssetProxyQuery.ToArrayAsWritten | Classes/AssetSource/MediaWikiAssetProxyQueryResult.php:77-80 | As written, it always fails on the undeclared `getArrayCopy`. |
| AssetProxyQuery.AssetRecords | Classes/AssetSource/MediaWikiAssetProxyQueryResult.php:72-80 | Some exactly when every element is an array. Then there is one record per entry, in order. |
| AssetProxyQuery.ToArrayAsWrittenFails | Classes/AssetSource/MediaWikiAssetProxyQueryResult.php:77-80 | Even on the assets of a details query, where every record exists, `toArray` as written fails. |
| AssetProxyQuery.MediaWikiAssetProxyQueryResult.ToArray | Classes/AssetSource/MediaWikiAssetProxyQueryResult.php:72-80 | Corrected: one new proxy per entry, in order, over that entry's record. It fails exactly when some element is not an array. |
| PhpStrings.ReplaceSpacesLeavesNoSpace | Classes/Api/MediaWikiClient.php:149 | `str_replace(' ', '_', …)` leaves no space. |
| PhpStrings.ReplaceSpacesIdempotent | Classes/Api/MediaWikiClient.php:149 | Underscoring an underscored title changes nothing. |
| PhpStrings.ImplodeExplode | Classes/Api/MediaWikiClient.php:132 | `implode` of `explode` gives the text back. |
| PhpStrings.ExplodeAtFirstSeparator | Classes/Api/MediaWikiClient.php:153 | `explode` splits at the first separator, and the rest is split in turn. |
| PhpStrings.TrimEmptyIffBlank | Classes/AssetSource/MediaWikiAssetProxy.php:268 | `trim($s) === ''` exactly when `s` consists of trimmed characters only. |
| PhpStrings.StripTagsPlainText | Classes/AssetSource/MediaWikiAssetProxy.php:269 | Text without a `<` passes `strip_tags` unchanged. |
| PhpStrings.IntToStringRoundTrip | Classes/AssetSource/MediaWikiAssetProxy.php:125 | `(int)` of an integer's decimal text gives the integer. |
| PhpValues.IntCastOfStringCast | Classes/AssetSource/MediaWikiAssetProxy.php:125 | An `(int)` cast after a `(string)` cast agrees with the `(int)` cast for every non-string value. |

## Left out

- HTTP and JSON: the Guzzle request, `json_decode` and the lazy `getClient` are replaced by the `Server` function and a typed response. A malformed response is not modelled. That covers a missing `query.allimages`, a missing image count, a non-list `query.search`, and titles that are not strings.
- Cache keys: `sha1` of the URL is not modelled. The cache is keyed by the URL itself, which is equivalent when the hash is injective.
- URL encoding: `http_build_query` percent-encoding is not modelled. `QueryString` joins plain `k=v` pairs.
- Glob matching: only `*` and `?` of `fnmatch` are modelled. Bracket classes, escapes and flags are not.
- Foreign services: Eel evaluation is an uninterpreted `EelEvaluator` function, and its own exceptions and the default context are not modelled. `strip_tags` is modelled without allowed tags and without PHP's handling of quotes and comments inside tags. `getLastModified`, `getMediaType` and `getImportStream` are not modelled, because they depend on `DateTime`, `MediaTypes` and `fopen`. The URI getters return the URI text, not a `UriFactory` object.
- The imported-asset lookup: records are a map from (source identifier, remote identifier) to the local identifier. The repository's persistence is not modelled.
- Options: `getOption` over nested option arrays is replaced by one typed field per option path. A missing `domain` option is not modelled: it would be `null` passed to a `string` parameter.
- Asset records: a record is flat, one value per dotted path, so `Arrays::getValueByPath` is a map lookup. Nested arrays inside a record are not modelled.
- Negative offsets: PHP's `array_slice` counts them from the end. `SetOffset` and every offset here are non-negative.
- Array keys: PHP turns the numeric-string keys of arrays into integers, and that is not modelled. Keys are strings, and `offsetGet(0)` is read as a lookup of "0".
- Strategy names: `class_exists` is case-insensitive and accepts any loaded class, and neither is modelled. StrategyFactory.ResolveStrategy reports every name other than the two strategy class names as unknown (1526800805). In PHP, an existing class that is not a strategy would be built and then rejected by the return type.
- Repositories: `MediaWikiAssetProxyRepository` and `WikimediaAssetProxyRepository` only delegate, so the model keeps just the repository's binding to its source.
- WikimediaApi.WikimediaClient.GetAssetDetails: it returns the items and the total instead of a `WikimediaQueryResult`, because that class is not part of this model.
- Dto.ImageSearchResult.GetImageTitles: it returns the titles as a value. The `ArrayCollection` the PHP method hands out is shared with the DTO, and later changes through it are not modelled.
- Logging: the debug logger calls are not modelled.
- Glob.Matches: titles and patterns are sequences of code points, so `?` matches one character. PHP's `fnmatch` under a single-byte locale such as C matches one byte, so `File:Z?rich.jpg` matches `File:Zürich.jpg` here but not there. The two agree only under a multibyte locale, or on ASCII text.
- QueryExecution cache: the model's cache never expires, is never flushed, and is written only by this client. The Neos cache behind `queryResultCache` has a lifetime and is shared with other processes.
- PhpStrings.StrToInt: scientific notation is not modelled, so `(int)"1e3"` gives 1 here and 1000 in PHP 7.1 and later. The 64-bit range of PHP integers is not modelled either: a longer digit run does not saturate at `PHP_INT_MAX`.

## Findings

| source | as written | input that shows it | evidently intended | confidence | as-written member | corrected member |
|---|---|---|---|---|---|---|
| Classes/AssetSource/MediaWikiAssetProxy.php:258 | `compileCopyrightNotice` calls `$this->assetSource->getCopyRightNoticeTemplate()`, which `MediaWikiAssetSource` does not declare. So `getIptcProperties`, `hasIptcProperty` and `getIptcProperty` throw on every asset. | any asset record, e.g. the empty record | a source getter returning the `copyRightNoticeTemplate` option, which is then evaluated with LicenseUrl, Title and Creator | high (not executed) | AssetProxy.IptcPropertiesAsWrittenFail | AssetProxy.MediaWikiAssetProxy.GetIptcProperties |
| Classes/AssetSource/MediaWikiAssetProxyQueryResult.php:69 | `getFirst` is `offsetGet(0)`, but the collection is keyed by image title. A non-empty result has nothing under 0, and the proxy constructor gets `null`. | one asset under `File:Example.jpg` | the asset at the first position, or null for an empty result | high (not executed) | AssetProxyQuery.FirstAsWrittenCounterexample | AssetProxyQuery.MediaWikiAssetProxyQueryResult.GetFirst |
| Classes/AssetSource/MediaWikiAssetProxyQueryResult.php:79 | `toArray` calls `getArrayCopy()` on a `MediaWikiQueryResult`, which does not declare it. | any result of a details query | one asset proxy per asset, in order | high (not executed) | AssetProxyQuery.ToArrayAsWrittenFails | AssetProxyQuery.MediaWikiAssetProxyQueryResult.ToArray |
