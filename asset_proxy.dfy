/**
 * One remote asset as the media library sees it: getters over the asset's
 * data record, the first-non-blank fallback over candidate metadata paths,
 * and the IPTC properties computed once and kept.
 *
 * The file declares strict types, so `trim` of a value that is neither
 * null nor a string ends in a TypeError; every operation that resolves a
 * value therefore returns a Result.
 */
module AssetProxy {
  import opened Wrappers
  import opened PhpStrings
  import opened PhpValues
  import opened Failures
  import opened AssetSource
  import QueryResults
  import MediaWikiApi

  // ---------------------------------------------------------------------
  // Candidate paths
  // ---------------------------------------------------------------------

  const ObjectNamePath: string := "extmetadata.ObjectName.value"
  const ImageDescriptionPath: string := "extmetadata.ImageDescription.value"
  const ArtistPath: string := "extmetadata.Artist.value"
  const LicenseUrlPath: string := "extmetadata.LicenseUrl.value"
  const DescriptionUrlPath: string := "descriptionurl"

  /** The label prefers the object name to the description ... */
  const LabelPaths: seq<string> := [ObjectNamePath, ImageDescriptionPath]
  /** ... and the IPTC title the description to the object name. */
  const TitlePaths: seq<string> := [ImageDescriptionPath, ObjectNamePath]
  const CreatorPaths: seq<string> := [ArtistPath]
  const LicenseUrlPaths: seq<string> := [LicenseUrlPath, DescriptionUrlPath]

  /** The IPTC property names the proxy supports. */
  const IptcPropertyNames: set<string> := {"Title", "Creator", "CopyrightNotice"}

  // ---------------------------------------------------------------------
  // resolveValue
  // ---------------------------------------------------------------------

  /** A value `resolveValue` passes over: null, or a string of white space only. */
  predicate Skipped(v: Value) {
    v.Null? || (v.Str? && IsBlank(v.s))
  }

  /** A value `resolveValue` takes: a string with a character `trim` keeps. */
  predicate Qualifies(v: Value) {
    v.Str? && !IsBlank(v.s)
  }

  /**
   * `resolveValue($candidatePaths)`: the first candidate that is set and not
   * blank, with its tags stripped; '' when none is. A candidate that is
   * neither null nor a string makes `trim` throw.
   */
  function ResolveValueOf(data: Record, candidatePaths: seq<string>): (r: Result<string, Error>)
    ensures r.Failure? ==> r.error == TypeError
    decreases |candidatePaths|
  {
    if candidatePaths == [] then Success("")
    else
      var v := Property(data, candidatePaths[0]);
      if v.Null? then ResolveValueOf(data, candidatePaths[1..])
      else if !v.Str? then Failure(TypeError)
      else if Trim(v.s) == "" then ResolveValueOf(data, candidatePaths[1..])
      else Success(StripTags(v.s))
  }

  /** When the candidates before `i` are skipped and candidate `i` qualifies, it is the result, tags stripped. */
  lemma {:induction false} ResolveValueFirst(data: Record, candidatePaths: seq<string>, i: nat)
    requires i < |candidatePaths|
    requires forall j :: 0 <= j < i ==> Skipped(Property(data, candidatePaths[j]))
    requires Qualifies(Property(data, candidatePaths[i]))
    ensures ResolveValueOf(data, candidatePaths) == Success(StripTags(Property(data, candidatePaths[i]).s))
    decreases |candidatePaths|
  {
    var v := Property(data, candidatePaths[0]);
    if v.Str? {
      TrimEmptyIffBlank(v.s);
    }
    if i > 0 {
      var rest := candidatePaths[1..];
      assert forall j :: 0 <= j < i - 1 ==> rest[j] == candidatePaths[j + 1];
      ResolveValueFirst(data, rest, i - 1);
    }
  }

  /** When every candidate is skipped, the result is ''. */
  lemma {:induction false} ResolveValueNone(data: Record, candidatePaths: seq<string>)
    requires forall j :: 0 <= j < |candidatePaths| ==> Skipped(Property(data, candidatePaths[j]))
    ensures ResolveValueOf(data, candidatePaths) == Success("")
    decreases |candidatePaths|
  {
    if candidatePaths != [] {
      var v := Property(data, candidatePaths[0]);
      if v.Str? {
        TrimEmptyIffBlank(v.s);
      }
      var rest := candidatePaths[1..];
      assert forall j :: 0 <= j < |rest| ==> rest[j] == candidatePaths[j + 1];
      ResolveValueNone(data, rest);
    }
  }

  /** When the candidates before `i` are skipped and candidate `i` is neither null nor a string, `trim` throws. */
  lemma {:induction false} ResolveValueTypeError(data: Record, candidatePaths: seq<string>, i: nat)
    requires i < |candidatePaths|
    requires forall j :: 0 <= j < i ==> Skipped(Property(data, candidatePaths[j]))
    requires !Property(data, candidatePaths[i]).Null? && !Property(data, candidatePaths[i]).Str?
    ensures ResolveValueOf(data, candidatePaths) == Failure(TypeError)
    decreases |candidatePaths|
  {
    if i > 0 {
      var v := Property(data, candidatePaths[0]);
      if v.Str? {
        TrimEmptyIffBlank(v.s);
      }
      var rest := candidatePaths[1..];
      assert forall j :: 0 <= j < i - 1 ==> rest[j] == candidatePaths[j + 1];
      ResolveValueTypeError(data, rest, i - 1);
    }
  }

  /** A record holding strings and nulls only. */
  predicate TextOnly(data: Record) {
    forall p :: p in data ==> data[p].Null? || data[p].Str?
  }

  /** On such a record `resolveValue` never throws. */
  lemma {:induction false} ResolveValueOfText(data: Record, candidatePaths: seq<string>)
    requires TextOnly(data)
    ensures ResolveValueOf(data, candidatePaths).Success?
    decreases |candidatePaths|
  {
    if candidatePaths != [] {
      ResolveValueOfText(data, candidatePaths[1..]);
    }
  }

  /**
   * The label and the IPTC title read the same two fields in opposite
   * order: with both present, the label is the object name and the title
   * the description; with only one of them present, both are that one.
   */
  lemma LabelAndTitlePreference(data: Record)
    ensures Qualifies(Property(data, ObjectNamePath)) && Qualifies(Property(data, ImageDescriptionPath)) ==>
      ResolveValueOf(data, LabelPaths) == Success(StripTags(Property(data, ObjectNamePath).s)) &&
      ResolveValueOf(data, TitlePaths) == Success(StripTags(Property(data, ImageDescriptionPath).s))
    ensures Qualifies(Property(data, ObjectNamePath)) && Skipped(Property(data, ImageDescriptionPath)) ==>
      ResolveValueOf(data, LabelPaths) == Success(StripTags(Property(data, ObjectNamePath).s)) &&
      ResolveValueOf(data, TitlePaths) == Success(StripTags(Property(data, ObjectNamePath).s))
    ensures Skipped(Property(data, ObjectNamePath)) && Qualifies(Property(data, ImageDescriptionPath)) ==>
      ResolveValueOf(data, LabelPaths) == Success(StripTags(Property(data, ImageDescriptionPath).s)) &&
      ResolveValueOf(data, TitlePaths) == Success(StripTags(Property(data, ImageDescriptionPath).s))
  {
    var name, description := Property(data, ObjectNamePath), Property(data, ImageDescriptionPath);
    if Qualifies(name) {
      ResolveValueFirst(data, LabelPaths, 0);
      if Qualifies(description) {
        ResolveValueFirst(data, TitlePaths, 0);
      } else if Skipped(description) {
        ResolveValueFirst(data, TitlePaths, 1);
      }
    } else if Skipped(name) && Qualifies(description) {
      ResolveValueFirst(data, LabelPaths, 1);
      ResolveValueFirst(data, TitlePaths, 0);
    }
  }

  /** The licence URL of the copyright context falls back to the description page's URL. */
  lemma LicenseUrlFallback(data: Record)
    requires Skipped(Property(data, LicenseUrlPath)) && Qualifies(Property(data, DescriptionUrlPath))
    ensures ResolveValueOf(data, LicenseUrlPaths) == Success(StripTags(Property(data, DescriptionUrlPath).s))
  {
    ResolveValueFirst(data, LicenseUrlPaths, 1);
  }

  // ---------------------------------------------------------------------
  // The copyright notice and the IPTC properties
  // ---------------------------------------------------------------------

  /** The variables the copyright template is evaluated with, resolved in the order written. */
  function CopyrightContext(data: Record): (r: Result<map<string, string>, Error>)
    ensures r.Success? ==> r.value.Keys == {"LicenseUrl", "Title", "Creator"}
    ensures r.Success? ==>
      && ResolveValueOf(data, LicenseUrlPaths) == Success(r.value["LicenseUrl"])
      && ResolveValueOf(data, TitlePaths) == Success(r.value["Title"])
      && ResolveValueOf(data, CreatorPaths) == Success(r.value["Creator"])
  {
    var licenseUrl :- ResolveValueOf(data, LicenseUrlPaths);
    var title :- ResolveValueOf(data, TitlePaths);
    var creator :- ResolveValueOf(data, CreatorPaths);
    Success(map["LicenseUrl" := licenseUrl, "Title" := title, "Creator" := creator])
  }

  /**
   * `compileCopyrightNotice()` as written: the context is resolved, then
   * the source's own `getCopyRightNoticeTemplate()` is called, which the
   * asset source class does not declare.
   */
  function CompileCopyrightNoticeAsWritten(data: Record): (r: Result<string, Error>)
    ensures r.Failure?
  {
    var context :- CopyrightContext(data);
    Failure(UndefinedMethod("getCopyRightNoticeTemplate"))
  }

  /**
   * `getIptcProperties()` as written, on top of that notice: title and
   * creator are resolved, then the notice's failure propagates, so the
   * properties are never built.
   */
  function IptcPropertiesAsWritten(data: Record): (r: Result<map<string, string>, Error>) {
    var title :- ResolveValueOf(data, TitlePaths);
    var creator :- ResolveValueOf(data, CreatorPaths);
    CompileCopyrightNoticeAsWritten(data).PropagateFailure()
  }

  /**
   * As written, no asset has IPTC properties: on every record the call
   * fails, and on a record of text the failure is the undefined getter.
   */
  lemma IptcPropertiesAsWrittenFail(data: Record)
    ensures IptcPropertiesAsWritten(data).Failure?
    ensures TextOnly(data) ==> IptcPropertiesAsWritten(data) == Failure(UndefinedMethod("getCopyRightNoticeTemplate"))
  {
    if TextOnly(data) {
      ResolveValueOfText(data, LicenseUrlPaths);
      ResolveValueOfText(data, TitlePaths);
      ResolveValueOfText(data, CreatorPaths);
    }
  }

  /** `compileCopyrightNotice()` with the asset source's template: the template evaluated in the context. */
  function CompileCopyrightNotice(data: Record, template: string, eel: EelEvaluator): (r: Result<string, Error>)
    ensures r.Success? <==> CopyrightContext(data).Success?
    ensures r.Success? ==> r.value == eel(template, CopyrightContext(data).value)
  {
    var context :- CopyrightContext(data);
    Success(eel(template, context))
  }

  /** `getIptcProperties()`: title, creator and copyright notice, in that order of evaluation. */
  function IptcPropertiesOf(data: Record, template: string, eel: EelEvaluator): (r: Result<map<string, string>, Error>)
    ensures r.Success? ==> r.value.Keys == IptcPropertyNames
  {
    var title :- ResolveValueOf(data, TitlePaths);
    var creator :- ResolveValueOf(data, CreatorPaths);
    var notice :- CompileCopyrightNotice(data, template, eel);
    Success(map["Title" := title, "Creator" := creator, "CopyrightNotice" := notice])
  }

  /**
   * The IPTC title and creator are the resolved fields, the notice is the
   * template evaluated with those same values; on a record of text the
   * properties always exist.
   */
  lemma IptcPropertiesValues(data: Record, template: string, eel: EelEvaluator)
    ensures var r := IptcPropertiesOf(data, template, eel);
      r.Success? ==>
        && ResolveValueOf(data, TitlePaths) == Success(r.value["Title"])
        && ResolveValueOf(data, CreatorPaths) == Success(r.value["Creator"])
        && CopyrightContext(data).Success?
        && CopyrightContext(data).value["Title"] == r.value["Title"]
        && CopyrightContext(data).value["Creator"] == r.value["Creator"]
        && r.value["CopyrightNotice"] == eel(template, CopyrightContext(data).value)
    ensures TextOnly(data) ==> IptcPropertiesOf(data, template, eel).Success?
  {
    if TextOnly(data) {
      ResolveValueOfText(data, LicenseUrlPaths);
      ResolveValueOfText(data, TitlePaths);
      ResolveValueOfText(data, CreatorPaths);
    }
  }

  // ---------------------------------------------------------------------
  // The proxy
  // ---------------------------------------------------------------------

  class MediaWikiAssetProxy {
    const assetData: Record
    const assetSource: MediaWikiAssetSource
    /** The local identifier of the imported-asset record found at construction, if one was. */
    const importedAsset: Option<string>
    /** The IPTC properties, once computed. */
    var iptcProperties: Option<map<string, string>>

    /** What `getIptcProperties()` computes for this asset. */
    function Iptc(): Result<map<string, string>, Error> {
      IptcPropertiesOf(assetData, assetSource.GetCopyRightNoticeTemplate(), assetSource.eelEvaluator)
    }

    /** Kept properties are the ones the asset's data gives. */
    ghost predicate Valid()
      reads this
    {
      iptcProperties.Some? ==> Iptc() == Success(iptcProperties.value)
    }

    /** Keeps the data and the source and looks up the imported-asset record under the source and the identifier. */
    constructor(assetData: Record, assetSource: MediaWikiAssetSource)
      ensures this.assetData == assetData && this.assetSource == assetSource
      ensures importedAsset == assetSource.importedAssetRepository.FindOne(assetSource.assetSourceIdentifier, StringCast(Property(assetData, "identifier")))
      ensures iptcProperties == None && Valid()
    {
      this.assetData := assetData;
      this.assetSource := assetSource;
      importedAsset := assetSource.importedAssetRepository.FindOne(assetSource.GetIdentifier(), StringCast(Property(assetData, "identifier")));
      iptcProperties := None;
    }

    function GetAssetSource(): (s: MediaWikiAssetSource)
      ensures s == assetSource
    {
      assetSource
    }

    /** `getProperty($path)`: the value under the path, null when there is none. */
    function GetProperty(propertyPath: string): (v: Value)
      ensures propertyPath in assetData ==> v == assetData[propertyPath]
      ensures propertyPath !in assetData ==> v == Null
    {
      Property(assetData, propertyPath)
    }

    /** `(string)` of the `identifier` field. */
    function GetIdentifier(): (id: string)
      ensures GetProperty("identifier").Str? ==> id == GetProperty("identifier").s
      ensures GetProperty("identifier").Null? ==> id == ""
    {
      StringCast(GetProperty("identifier"))
    }

    /** `(string)` of the `filename` field. */
    function GetFilename(): (name: string)
      ensures GetProperty("filename").Str? ==> name == GetProperty("filename").s
      ensures GetProperty("filename").Null? ==> name == ""
    {
      StringCast(GetProperty("filename"))
    }

    /** `(int)` of the `size` field. */
    function GetFileSize(): (n: int)
      ensures GetProperty("size").Int? ==> n == GetProperty("size").i
      ensures GetProperty("size").Null? ==> n == 0
    {
      IntCast(GetProperty("size"))
    }

    /** `(int)` of the `width` field. */
    function GetWidthInPixels(): (n: int)
      ensures GetProperty("width").Int? ==> n == GetProperty("width").i
      ensures GetProperty("width").Null? ==> n == 0
    {
      IntCast(GetProperty("width"))
    }

    /** `(int)` of the `height` field. */
    function GetHeightInPixels(): (n: int)
      ensures GetProperty("height").Int? ==> n == GetProperty("height").i
      ensures GetProperty("height").Null? ==> n == 0
    {
      IntCast(GetProperty("height"))
    }

    /** The text of the thumbnail URI: `(string)` of `thumburl`. */
    function GetThumbnailUri(): (u: string)
      ensures GetProperty("thumburl").Str? ==> u == GetProperty("thumburl").s
      ensures GetProperty("thumburl").Null? ==> u == ""
    {
      StringCast(GetProperty("thumburl"))
    }

    /** The text of the preview URI: `(string)` of `url`. */
    function GetPreviewUri(): (u: string)
      ensures GetProperty("url").Str? ==> u == GetProperty("url").s
      ensures GetProperty("url").Null? ==> u == ""
    {
      StringCast(GetProperty("url"))
    }

    /** The local identifier of the imported asset; '' when none was found. */
    function GetLocalAssetIdentifier(): (id: string)
      ensures importedAsset.Some? ==> id == importedAsset.value
      ensures importedAsset.None? ==> id == ""
    {
      importedAsset.GetOr("")
    }

    /** Whether an imported-asset record was found. */
    function IsImported(): (b: bool)
      ensures b <==> importedAsset.Some?
    {
      importedAsset.Some?
    }

    /** `resolveValue($candidatePaths)`: the loop over the candidates, with its early return. */
    method ResolveValue(candidatePaths: seq<string>) returns (r: Result<string, Error>)
      ensures r == ResolveValueOf(assetData, candidatePaths)
    {
      for i := 0 to |candidatePaths|
        invariant ResolveValueOf(assetData, candidatePaths) == ResolveValueOf(assetData, candidatePaths[i..])
      {
        assert candidatePaths[i..][1..] == candidatePaths[i + 1..];
        var value := GetProperty(candidatePaths[i]);
        if value != Null {
          if !value.Str? {
            return Failure(TypeError);
          }
          if Trim(value.s) != "" {
            return Success(StripTags(value.s));
          }
        }
      }
      return Success("");
    }

    /** `getLabel()`: the object name, else the description, else ''. */
    method GetLabel() returns (r: Result<string, Error>)
      ensures r == ResolveValueOf(assetData, LabelPaths)
    {
      r := ResolveValue(LabelPaths);
    }

    /** `compileCopyrightNotice()`: the source's template evaluated with licence URL, title and creator. */
    method CompileCopyrightNoticeOfAsset() returns (r: Result<string, Error>)
      ensures r == CompileCopyrightNotice(assetData, assetSource.GetCopyRightNoticeTemplate(), assetSource.eelEvaluator)
    {
      var licenseUrl :- ResolveValue(LicenseUrlPaths);
      var title :- ResolveValue(TitlePaths);
      var creator :- ResolveValue(CreatorPaths);
      var context := map["LicenseUrl" := licenseUrl, "Title" := title, "Creator" := creator];
      r := Success(assetSource.eelEvaluator(assetSource.GetCopyRightNoticeTemplate(), context));
    }

    /**
     * `getIptcProperties()`: computed on the first successful call and kept;
     * every later call returns the kept properties unchanged.
     */
    method GetIptcProperties() returns (r: Result<map<string, string>, Error>)
      requires Valid()
      modifies this`iptcProperties
      ensures Valid() && r == Iptc()
      ensures old(iptcProperties).Some? ==> iptcProperties == old(iptcProperties)
      ensures r.Success? ==> iptcProperties == Some(r.value)
      ensures r.Failure? ==> iptcProperties == old(iptcProperties)
    {
      if iptcProperties.None? {
        var title :- ResolveValue(TitlePaths);
        var creator :- ResolveValue(CreatorPaths);
        var notice :- CompileCopyrightNoticeOfAsset();
        iptcProperties := Some(map["Title" := title, "Creator" := creator, "CopyrightNotice" := notice]);
      }
      r := Success(iptcProperties.value);
    }

    /** `hasIptcProperty($name)`: the property exists and is not empty in PHP's sense. */
    method HasIptcProperty(propertyName: string) returns (r: Result<bool, Error>)
      requires Valid()
      modifies this`iptcProperties
      ensures Valid()
      ensures Iptc().Failure? ==> r == Failure(Iptc().error) && iptcProperties == old(iptcProperties)
      ensures Iptc().Success? ==>
        && r == Success(propertyName in Iptc().value && !IsEmptyString(Iptc().value[propertyName]))
        && iptcProperties == Some(Iptc().value)
    {
      var properties :- GetIptcProperties();
      if propertyName !in properties {
        return Success(false);
      }
      var again := GetIptcProperties();
      r := Success(!IsEmptyString(again.value[propertyName]));
    }

    /** `getIptcProperty($name)`: the property, '' for a name that is not one of them. */
    method GetIptcProperty(propertyName: string) returns (r: Result<string, Error>)
      requires Valid()
      modifies this`iptcProperties
      ensures Valid()
      ensures Iptc().Failure? ==> r == Failure(Iptc().error) && iptcProperties == old(iptcProperties)
      ensures Iptc().Success? ==>
        && r == Success(if propertyName in Iptc().value then Iptc().value[propertyName] else "")
        && iptcProperties == Some(Iptc().value)
      ensures Iptc().Success? && propertyName !in IptcPropertyNames ==> r == Success("")
    {
      var properties :- GetIptcProperties();
      r := Success(if propertyName in properties then properties[propertyName] else "");
    }
  }

  /** A numeric string field casts back to the integer it spells, as the size, width and height getters read it. */
  lemma NumericFieldCast(data: Record, path: string, n: int)
    requires Property(data, path) == Str(IntToString(n))
    ensures IntCast(Property(data, path)) == n
  {
    IntToStringRoundTrip(n);
  }

  /**
   * A proxy over an asset the details query keyed gives that key as its
   * identifier, which is what the imported-asset lookup is made with.
   */
  lemma KeyedAssetIdentifier(q: (string, QueryResults.Element), p: MediaWikiAssetProxy)
    requires MediaWikiApi.KeyedAsset(q) && p.assetData == q.1.data
    ensures p.GetIdentifier() == q.0
  {
  }
}
