/**
 * The title pipeline every listing runs through: exclusion filtering by
 * glob patterns, the `array_slice` page, and the underscore normalisation
 * of each title.
 */
module TitlePipeline {
  import Glob
  import opened PhpStrings

  /** Some exclusion pattern matches the image title, trying the patterns in order. */
  predicate Excluded(image: string, patterns: seq<string>)
    decreases |patterns|
  {
    patterns != [] && (Glob.Matches(patterns[0], image) || Excluded(image, patterns[1..]))
  }

  /** An image is excluded exactly when one of the patterns matches it. */
  lemma {:induction false} ExcludedByPattern(image: string, patterns: seq<string>)
    ensures Excluded(image, patterns) <==> exists i :: 0 <= i < |patterns| && Glob.Matches(patterns[i], image)
    decreases |patterns|
  {
    if patterns != [] {
      var rest := patterns[1..];
      ExcludedByPattern(image, rest);
      if exists i :: 0 <= i < |patterns| && Glob.Matches(patterns[i], image) {
        var i :| 0 <= i < |patterns| && Glob.Matches(patterns[i], image);
        if i > 0 {
          assert rest[i - 1] == patterns[i];
        }
      }
      if exists i :: 0 <= i < |rest| && Glob.Matches(rest[i], image) {
        var i :| 0 <= i < |rest| && Glob.Matches(rest[i], image);
        assert patterns[i + 1] == rest[i];
      }
    }
  }

  /** The images a keep decision lets through, in their original order. */
  function KeepWhere(images: seq<string>, keep: string -> bool): (r: seq<string>)
    ensures |r| <= |images|
  {
    if images == [] then [] else KeepOne(images[0], keep) + KeepWhere(images[1..], keep)
  }

  /** The decision on the first image, as a list of zero or one image. */
  function KeepOne(image: string, keep: string -> bool): seq<string> {
    if keep(image) then [image] else []
  }

  lemma KeepWhereStep(a: seq<string>, keep: string -> bool)
    requires a != []
    ensures KeepWhere(a, keep) == KeepOne(a[0], keep) + KeepWhere(a[1..], keep)
  {
  }

  lemma ConcatAssoc(x: seq<string>, y: seq<string>, z: seq<string>)
    ensures x + (y + z) == (x + y) + z
  {
  }

  /** Whatever the decision, it is taken element by element, so a concatenation is filtered part by part. */
  lemma {:induction false} KeepWhereAppend(a: seq<string>, b: seq<string>, keep: string -> bool)
    ensures KeepWhere(a + b, keep) == KeepWhere(a, keep) + KeepWhere(b, keep)
  {
    if a == [] {
      assert a + b == b;
    } else {
      var x, tail := a[0], a[1..];
      KeepWhereAppend(tail, b, keep);
      assert (a + b)[0] == x && (a + b)[1..] == tail + b;
      KeepWhereStep(a + b, keep);
      KeepWhereStep(a, keep);
      ConcatAssoc(KeepOne(x, keep), KeepWhere(tail, keep), KeepWhere(b, keep));
    }
  }

  /** The decision of the exclusion filter: keep what no pattern matches. */
  function NotExcluded(patterns: seq<string>): string -> bool {
    image => !Excluded(image, patterns)
  }

  /** The images no exclusion pattern matches, in their original order. */
  function Filtered(images: seq<string>, patterns: seq<string>): (r: seq<string>)
    ensures |r| <= |images|
  {
    KeepWhere(images, NotExcluded(patterns))
  }

  /** The one image as a list when no pattern excludes it, nothing otherwise. */
  function Kept(image: string, patterns: seq<string>): seq<string> {
    if Excluded(image, patterns) then [] else [image]
  }

  /** The first image is kept or dropped, then the rest is filtered. */
  lemma FilteredCons(images: seq<string>, patterns: seq<string>)
    requires images != []
    ensures Filtered(images, patterns) == Kept(images[0], patterns) + Filtered(images[1..], patterns)
  {
  }

  /** Filtering a concatenation filters each part. */
  lemma FilteredAppend(a: seq<string>, b: seq<string>, patterns: seq<string>)
    ensures Filtered(a + b, patterns) == Filtered(a, patterns) + Filtered(b, patterns)
  {
    KeepWhereAppend(a, b, NotExcluded(patterns));
  }

  /** Filtering one more image at the end adds it exactly when it is kept. */
  lemma FilteredSnoc(a: seq<string>, x: string, patterns: seq<string>)
    ensures Filtered(a + [x], patterns) == Filtered(a, patterns) + Kept(x, patterns)
  {
    FilteredAppend(a, [x], patterns);
    assert [x][1..] == [];
  }

  /** An image survives filtering exactly when it is in the input and no pattern matches it. */
  lemma {:induction false} FilteredMembership(images: seq<string>, patterns: seq<string>, x: string)
    ensures x in Filtered(images, patterns) <==> x in images && !Excluded(x, patterns)
  {
    if images != [] {
      FilteredMembership(images[1..], patterns, x);
      assert images == [images[0]] + images[1..];
    }
  }

  /** Without patterns nothing is excluded. */
  lemma {:induction false} FilteredWithoutPatterns(images: seq<string>)
    ensures Filtered(images, []) == images
  {
    if images != [] {
      FilteredWithoutPatterns(images[1..]);
      assert images == [images[0]] + images[1..];
    }
  }

  /** Filtering an already filtered list changes nothing. */
  lemma {:induction false} FilteredIdempotent(images: seq<string>, patterns: seq<string>)
    ensures Filtered(Filtered(images, patterns), patterns) == Filtered(images, patterns)
  {
    if images != [] {
      var head := Kept(images[0], patterns);
      FilteredIdempotent(images[1..], patterns);
      FilteredAppend(head, Filtered(images[1..], patterns), patterns);
      if head != [] {
        assert Filtered(head, patterns) == head by {
          assert head[1..] == [];
        }
      }
    }
  }

  // ---------------------------------------------------------------------
  // Subsequences
  // ---------------------------------------------------------------------

  /** `a` is obtained from `b` by deleting elements, the rest keeping their order. */
  predicate IsSubsequence<T(==)>(a: seq<T>, b: seq<T>)
    decreases |b|
  {
    if a == [] then true
    else if b == [] then false
    else if a[0] == b[0] then IsSubsequence(a[1..], b[1..])
    else IsSubsequence(a, b[1..])
  }

  lemma {:induction false} SubsequenceDropHead<T>(a: seq<T>, b: seq<T>)
    requires a != [] && IsSubsequence(a, b)
    ensures IsSubsequence(a[1..], b)
    decreases |b|, 0
  {
    if a[0] == b[0] {
      SubsequenceCons(a[1..], b[1..], b[0]);
      assert [b[0]] + b[1..] == b;
    } else {
      SubsequenceDropHead(a, b[1..]);
      SubsequenceCons(a[1..], b[1..], b[0]);
      assert [b[0]] + b[1..] == b;
    }
  }

  lemma {:induction false} SubsequenceCons<T>(a: seq<T>, b: seq<T>, x: T)
    requires IsSubsequence(a, b)
    ensures IsSubsequence(a, [x] + b)
    decreases |b|, 1
  {
    if a != [] {
      assert ([x] + b)[1..] == b;
      if a[0] == x {
        SubsequenceDropHead(a, b);
      }
    }
  }

  /** The filtered list is a subsequence of the input: order kept, nothing added. */
  lemma {:induction false} FilteredIsSubsequence(images: seq<string>, patterns: seq<string>)
    ensures IsSubsequence(Filtered(images, patterns), images)
  {
    if images != [] {
      FilteredIsSubsequence(images[1..], patterns);
      var rest := Filtered(images[1..], patterns);
      if Excluded(images[0], patterns) {
        SubsequenceCons(rest, images[1..], images[0]);
        assert [images[0]] + images[1..] == images;
        assert Filtered(images, patterns) == rest;
      } else {
        var f := [images[0]] + rest;
        assert Filtered(images, patterns) == f;
        assert f[0] == images[0] && f[1..] == rest;
      }
    }
  }

  // ---------------------------------------------------------------------
  // Paging and normalisation
  // ---------------------------------------------------------------------

  function Min(a: int, b: int): int {
    if a <= b then a else b
  }

  /** `array_slice($s, $offset, $length)` for a non-negative offset. */
  function Slice<T>(s: seq<T>, offset: nat, length: nat): (r: seq<T>)
    ensures |r| == if offset >= |s| then 0 else Min(length, |s| - offset)
    ensures forall k :: 0 <= k < |r| ==> offset + k < |s| && r[k] == s[offset + k]
  {
    if offset >= |s| then [] else s[offset..Min(offset + length, |s|)]
  }

  /** Each title with its spaces turned into underscores. */
  function Normalised(titles: seq<string>): seq<string> {
    seq(|titles|, k requires 0 <= k < |titles| => ReplaceSpaces(titles[k]))
  }

  /** The titles of one result page: filter, slice, normalise. */
  function PageTitles(images: seq<string>, patterns: seq<string>, offset: nat, perPage: nat): seq<string> {
    Normalised(Slice(Filtered(images, patterns), offset, perPage))
  }

  /**
   * The page holds the filtered images at positions `offset ..
   * offset + perPage`, underscored; it is empty when the offset is at or
   * past the end and full when enough images follow the offset.
   */
  lemma PageTitlesAt(images: seq<string>, patterns: seq<string>, offset: nat, perPage: nat)
    ensures var r, f := PageTitles(images, patterns, offset, perPage), Filtered(images, patterns);
      && |r| <= perPage
      && |r| == (if offset >= |f| then 0 else Min(perPage, |f| - offset))
      && (offset >= |f| ==> r == [])
      && (offset + perPage <= |f| ==> |r| == perPage)
      && forall k :: 0 <= k < |r| ==> offset + k < |f| && r[k] == ReplaceSpaces(f[offset + k])
  {
  }

  /** No title on a page contains a space. */
  lemma PageTitlesHaveNoSpaces(images: seq<string>, patterns: seq<string>, offset: nat, perPage: nat)
    ensures forall k :: 0 <= k < |PageTitles(images, patterns, offset, perPage)| ==>
      ' ' !in PageTitles(images, patterns, offset, perPage)[k]
  {
    var s := Slice(Filtered(images, patterns), offset, perPage);
    forall k | 0 <= k < |s| ensures ' ' !in ReplaceSpaces(s[k]) {
      ReplaceSpacesLeavesNoSpace(s[k]);
    }
  }
}
