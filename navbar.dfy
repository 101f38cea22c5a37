/**
 * The header title of `src/components/layout/Navbar.tsx`: a fixed table of
 * routes, and for any other route the last path segment with its first
 * hyphen turned into a space.
 */
module Navbar {

  /** `path.split('/').pop()`: the text after the last '/', or all of `path` when it has none. */
  function LastSegment(path: string): (r: string)
    ensures '/' !in r
    ensures |r| <= |path| && r == path[|path| - |r|..]
    ensures |r| < |path| ==> path[|path| - |r| - 1] == '/'
    decreases |path|
  {
    if path == [] then []
    else if path[|path| - 1] == '/' then []
    else
      var prefix := path[..|path| - 1];
      var r := LastSegment(prefix);
      var last := path[|path| - 1];
      assert r == prefix[|prefix| - |r|..];
      assert prefix[|prefix| - |r|..] + [last] == path[|path| - |r| - 1..];
      assert |r| < |prefix| ==> path[|path| - |r| - 2] == prefix[|prefix| - |r| - 1];
      r + [last]
  }

  /** `s.replace(from, to)` with a string pattern: only the first occurrence is replaced. */
  function ReplaceFirst(s: string, from: char, to: char): (r: string)
    ensures |r| == |s|
  {
    if s == [] then []
    else if s[0] == from then [to] + s[1..]
    else [s[0]] + ReplaceFirst(s[1..], from, to)
  }

  /** The position of the first occurrence of `c` in `s`. */
  function FirstIndex(s: string, c: char): (i: nat)
    requires c in s
    ensures i < |s| && s[i] == c && c !in s[..i]
  {
    if s[0] == c then 0
    else
      assert c in s[1..] by {
        var j :| 0 <= j < |s| && s[j] == c;
        assert s[1..][j - 1] == c;
      }
      var i := FirstIndex(s[1..], c);
      assert s[..i + 1] == [s[0]] + s[1..][..i];
      i + 1
  }

  /** Without the character, replacing changes nothing. */
  lemma {:induction false} ReplaceFirstAbsent(s: string, from: char, to: char)
    requires from !in s
    ensures ReplaceFirst(s, from, to) == s
  {
    if s != [] {
      ReplaceFirstAbsent(s[1..], from, to);
      assert s == [s[0]] + s[1..];
    }
  }

  /** With the character, exactly its first occurrence is replaced. */
  lemma {:induction false} ReplaceFirstAt(s: string, from: char, to: char)
    requires from in s
    ensures ReplaceFirst(s, from, to) == s[..FirstIndex(s, from)] + [to] + s[FirstIndex(s, from) + 1..]
  {
    if s[0] != from {
      var t := s[1..];
      var k := FirstIndex(t, from);
      assert FirstIndex(s, from) == k + 1;
      ReplaceFirstAt(t, from, to);
      assert s[..k + 1] == [s[0]] + t[..k];
      assert s[k + 2..] == t[k + 1..];
    }
  }

  /** The routes with a fixed title. */
  predicate IsFixedRoute(path: string) {
    path in {"/", "/dashboard", "/materials", "/inventory", "/purchasing", "/warehousing", "/maintenance"}
  }

  /** The title table for the fixed routes. */
  function FixedTitle(path: string): (r: string)
    requires IsFixedRoute(path)
    ensures r != [] && '/' !in r
  {
    if path == "/" then "Home"
    else if path == "/dashboard" then "Dashboard"
    else if path == "/materials" then "Materials"
    else if path == "/inventory" then "Inventory"
    else if path == "/purchasing" then "Purchasing"
    else if path == "/warehousing" then "Warehousing"
    else "Operations & Maintenance"
  }

  /**
   * `getPageTitle()`: a fixed route gets its entry of the table, which is
   * never empty; any other route a title as long as its last segment. No
   * title contains '/'.
   */
  function PageTitle(path: string): (r: string)
    ensures IsFixedRoute(path) ==> r != []
    ensures !IsFixedRoute(path) ==> |r| == |LastSegment(path)|
    ensures '/' !in r
  {
    if IsFixedRoute(path) then FixedTitle(path)
    else
      ReplaceFirstNoSlash(LastSegment(path), '-', ' ');
      ReplaceFirst(LastSegment(path), '-', ' ')
  }

  /** The fixed table wins over the fallback, e.g. "/maintenance" is not titled "maintenance". */
  lemma FixedRoutes()
    ensures PageTitle("/") == "Home"
    ensures PageTitle("/maintenance") == "Operations & Maintenance"
    ensures PageTitle("/maintenance") != ReplaceFirst(LastSegment("/maintenance"), '-', ' ')
  {
    assert LastSegment("/maintenance") == "maintenance";
  }

  /**
   * Any other route is titled by its last segment with only its first hyphen
   * replaced (see `ReplaceFirstAt`), e.g. "/orders/a-b-c" gives "a b-c".
   */
  lemma FallbackTitle(path: string)
    requires !IsFixedRoute(path)
    ensures PageTitle(path) == ReplaceFirst(LastSegment(path), '-', ' ')
  {
  }

  /** The last segment is exactly the text after the last '/'. */
  lemma LastSegmentAfterLastSlash(path: string, i: nat)
    requires i < |path| && path[i] == '/' && '/' !in path[i + 1..]
    ensures LastSegment(path) == path[i + 1..]
  {
  }

  /** A route other than "/" that ends in '/' gets the empty title. */
  lemma TrailingSlashTitle(path: string)
    requires path != "/" && |path| > 0 && path[|path| - 1] == '/'
    ensures PageTitle(path) == ""
  {
    assert !IsFixedRoute(path) by {
      assert path[|path| - 1] == '/';
    }
    FallbackTitle(path);
  }

  /** Replacing one character by one that is not '/' brings in no '/'. */
  lemma {:induction false} ReplaceFirstNoSlash(s: string, from: char, to: char)
    requires '/' !in s && to != '/'
    ensures '/' !in ReplaceFirst(s, from, to)
  {
    if s != [] && s[0] != from {
      ReplaceFirstNoSlash(s[1..], from, to);
    }
  }
}
