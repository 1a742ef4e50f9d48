/**
 * The part of `fnmatch($pattern, $string)` (no flags) that exclusion
 * patterns use: `*` matches any run of characters, `?` any one character,
 * every other character itself.
 */
module Glob {

  predicate IsWildcard(c: char) {
    c == '*' || c == '?'
  }

  predicate Matches(pattern: string, s: string)
    decreases |pattern| + |s|
  {
    if pattern == [] then s == []
    else if pattern[0] == '*' then Matches(pattern[1..], s) || (s != [] && Matches(pattern, s[1..]))
    else s != [] && (pattern[0] == '?' || pattern[0] == s[0]) && Matches(pattern[1..], s[1..])
  }

  /** A lone `*` matches every string. */
  lemma {:induction false} StarMatchesEverything(s: string)
    ensures Matches("*", s)
  {
    if s != [] {
      StarMatchesEverything(s[1..]);
    }
  }

  /** A pattern without wildcards matches exactly the string it spells. */
  lemma {:induction false} LiteralMatchesItself(pattern: string, s: string)
    requires forall i :: 0 <= i < |pattern| ==> !IsWildcard(pattern[i])
    ensures Matches(pattern, s) <==> s == pattern
  {
    if pattern != [] && s != [] {
      LiteralMatchesItself(pattern[1..], s[1..]);
      if s[0] == pattern[0] && s[1..] == pattern[1..] {
        assert s == [s[0]] + s[1..];
        assert pattern == [pattern[0]] + pattern[1..];
      }
    }
  }

  /** A pattern `p*` matches every string that starts with the literal `p`. */
  lemma {:induction false} PrefixStarMatches(prefix: string, rest: string)
    requires forall i :: 0 <= i < |prefix| ==> !IsWildcard(prefix[i])
    ensures Matches(prefix + "*", prefix + rest)
  {
    if prefix == [] {
      assert prefix + "*" == "*" && prefix + rest == rest;
      StarMatchesEverything(rest);
    } else {
      PrefixStarMatches(prefix[1..], rest);
      assert (prefix + "*")[1..] == prefix[1..] + "*";
      assert (prefix + rest)[1..] == prefix[1..] + rest;
    }
  }
}
