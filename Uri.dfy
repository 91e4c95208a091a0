/**
 * Resolution of a redirect `Location` value against the URL of the request,
 * after the generic URI syntax of RFC 3986: the split into components of its
 * appendix B, the recomposition of section 5.3, and the reference resolution
 * and path merging of sections 5.2.2 and 5.2.3.
 */
module Uri {
  import opened Wrappers

  /** The five components of a URI reference. An absent component (None) is not
      the same as a present but empty one: "http://h?" has an empty query. */
  datatype Reference = Reference(
    scheme: Option<string>,
    authority: Option<string>,
    path: string,
    query: Option<string>,
    fragment: Option<string>)

  /** The characters that end a scheme, an authority and a path respectively. */
  const SchemeEnd: set<char> := {':', '/', '?', '#'}
  const AuthorityEnd: set<char> := {'/', '?', '#'}
  const PathEnd: set<char> := {'?', '#'}

  /** No character of s is in cs. */
  predicate NoneOf(s: string, cs: set<char>) {
    forall k :: 0 <= k < |s| ==> s[k] !in cs
  }

  /** The position of the first character of s that is in stops, or |s| when there is none. */
  function IndexOfAny(s: string, stops: set<char>): (i: nat)
    ensures i <= |s|
    ensures NoneOf(s[..i], stops)
    ensures i < |s| ==> s[i] in stops
  {
    if s == [] || s[0] in stops then 0
    else
      var i := 1 + IndexOfAny(s[1..], stops);
      assert s[..i] == [s[0]] + s[1..][..i - 1];
      i
  }

  /** The three facts of IndexOfAny's contract determine its value. */
  lemma IndexOfAnyIs(s: string, stops: set<char>, i: nat)
    requires i <= |s| && NoneOf(s[..i], stops) && (i < |s| ==> s[i] in stops)
    ensures IndexOfAny(s, stops) == i
  {
  }

  /** The first stop in a + b is the first character of b when a has none and b starts with one. */
  lemma IndexOfAnyAfter(a: string, b: string, stops: set<char>)
    requires NoneOf(a, stops)
    requires b != [] ==> b[0] in stops
    ensures IndexOfAny(a + b, stops) == |a|
  {
    assert (a + b)[..|a|] == a;
    if b != [] {
      assert (a + b)[|a|] == b[0];
    }
    IndexOfAnyIs(a + b, stops, |a|);
  }

  // ---------------------------------------------------------------------------
  // Appendix B split and section 5.3 recomposition
  // ---------------------------------------------------------------------------

  function SchemeText(scheme: Option<string>): string {
    if scheme.Some? then scheme.value + ":" else ""
  }

  function AuthorityText(authority: Option<string>): string {
    if authority.Some? then "//" + authority.value else ""
  }

  function QueryText(query: Option<string>): string {
    if query.Some? then "?" + query.value else ""
  }

  function FragmentText(fragment: Option<string>): string {
    if fragment.Some? then "#" + fragment.value else ""
  }

  /** Section 5.3: the reference written out as text. */
  function Recompose(r: Reference): string {
    SchemeText(r.scheme) + (AuthorityText(r.authority) + (r.path + (QueryText(r.query) + FragmentText(r.fragment))))
  }

  /** "scheme:" is split off when the first of ':', '/', '?', '#' is a ':' that is not the first character. */
  function SplitScheme(s: string): (r: (Option<string>, string))
    ensures SchemeText(r.0) + r.1 == s
  {
    var i := IndexOfAny(s, SchemeEnd);
    if 0 < i < |s| && s[i] == ':' then
      assert s == s[..i] + ":" + s[i + 1..];
      (Some(s[..i]), s[i + 1..])
    else (None, s)
  }

  /** "//authority" is split off when the text starts with two slashes; the authority runs to the next '/', '?' or '#'. */
  function SplitAuthority(s: string): (r: (Option<string>, string))
    ensures AuthorityText(r.0) + r.1 == s
  {
    if |s| >= 2 && s[..2] == "//" then
      var j := 2 + IndexOfAny(s[2..], AuthorityEnd);
      assert s == s[..2] + s[2..j] + s[j..];
      (Some(s[2..j]), s[j..])
    else (None, s)
  }

  /** The path runs to the first '?' or '#'. */
  function SplitPath(s: string): (r: (string, string))
    ensures r.0 + r.1 == s
  {
    var p := IndexOfAny(s, PathEnd);
    assert s == s[..p] + s[p..];
    (s[..p], s[p..])
  }

  /** "?query" is split off when the text starts with '?'; the query runs to the next '#'. */
  function SplitQuery(s: string): (r: (Option<string>, string))
    ensures QueryText(r.0) + r.1 == s
  {
    if |s| >= 1 && s[0] == '?' then
      var j := 1 + IndexOfAny(s[1..], {'#'});
      assert s == s[..1] + s[1..j] + s[j..];
      (Some(s[1..j]), s[j..])
    else (None, s)
  }

  /** What is left after the query is either nothing or "#fragment". */
  function SplitFragment(s: string): (f: Option<string>)
    requires s == [] || s[0] == '#'
    ensures FragmentText(f) == s
  {
    if s == [] then None
    else
      assert s == [s[0]] + s[1..];
      Some(s[1..])
  }

  /** Appendix B: the split of any text into the five components. Every text
      splits, and writing the split back out gives the text again. */
  function Parse(s: string): (r: Reference)
    ensures Recompose(r) == s
  {
    var (scheme, afterScheme) := SplitScheme(s);
    var (authority, afterAuthority) := SplitAuthority(afterScheme);
    var (path, afterPath) := SplitPath(afterAuthority);
    var (query, afterQuery) := SplitQuery(afterPath);
    assert afterQuery == [] || afterQuery[0] == '#' by {
      if afterPath != [] && afterPath[0] != '?' {
        assert afterPath[0] in PathEnd;
      }
    }
    var fragment := SplitFragment(afterQuery);
    Reference(scheme, authority, path, query, fragment)
  }

  /** The references that come back unchanged from being written out and split again. */
  predicate WellFormed(r: Reference) {
    && (r.scheme.Some? ==> r.scheme.value != [] && NoneOf(r.scheme.value, SchemeEnd))
    && (r.authority.Some? ==> NoneOf(r.authority.value, AuthorityEnd))
    && NoneOf(r.path, PathEnd)
    && (r.authority.Some? ==> r.path == [] || r.path[0] == '/')
    && (r.authority.None? ==> !(|r.path| >= 2 && r.path[..2] == "//"))
    && (r.scheme.None? && r.authority.None? ==>
          var i := IndexOfAny(r.path, SchemeEnd); !(0 < i < |r.path| && r.path[i] == ':'))
    && (r.query.Some? ==> '#' !in r.query.value)
  }

  lemma SplitSchemeOf(r: Reference)
    requires WellFormed(r)
    ensures SplitScheme(Recompose(r)) == (r.scheme, AuthorityText(r.authority) + (r.path + (QueryText(r.query) + FragmentText(r.fragment))))
  {
    var afterPath := QueryText(r.query) + FragmentText(r.fragment);
    var tail := AuthorityText(r.authority) + (r.path + afterPath);
    var s := Recompose(r);
    if r.scheme.Some? {
      IndexOfAnyAfter(r.scheme.value, [':'] + tail, SchemeEnd);
      assert s == r.scheme.value + ([':'] + tail);
      assert s[|r.scheme.value| + 1..] == tail;
    } else if r.authority.Some? {
      assert s[0] == '/';
      IndexOfAnyIs(s, SchemeEnd, 0);
    } else {
      assert s == r.path + afterPath;
      var ip := IndexOfAny(r.path, SchemeEnd);
      if ip < |r.path| {
        assert s[..ip] == r.path[..ip];
        assert s[ip] == r.path[ip];
        IndexOfAnyIs(s, SchemeEnd, ip);
      } else {
        assert r.path[..ip] == r.path;
        IndexOfAnyAfter(r.path, afterPath, SchemeEnd);
      }
    }
  }

  lemma SplitAuthorityOf(r: Reference)
    requires WellFormed(r)
    ensures SplitAuthority(AuthorityText(r.authority) + (r.path + (QueryText(r.query) + FragmentText(r.fragment))))
            == (r.authority, r.path + (QueryText(r.query) + FragmentText(r.fragment)))
  {
    var afterPath := QueryText(r.query) + FragmentText(r.fragment);
    assert afterPath != [] ==> afterPath[0] in PathEnd;
    if r.authority.Some? {
      SplitPresentAuthority(r.authority.value, r.path, afterPath);
    } else {
      SplitAbsentAuthority(r.path, afterPath);
    }
  }

  lemma SplitPresentAuthority(au: string, path: string, afterPath: string)
    requires NoneOf(au, AuthorityEnd)
    requires path == [] || path[0] == '/'
    requires afterPath != [] ==> afterPath[0] in PathEnd
    ensures SplitAuthority("//" + au + (path + afterPath)) == (Some(au), path + afterPath)
  {
    var afterAuthority := path + afterPath;
    var tail := "//" + au + afterAuthority;
    assert tail[..2] == "//";
    assert tail[2..] == au + afterAuthority;
    if afterAuthority != [] {
      assert afterAuthority[0] in AuthorityEnd by {
        if path == [] { assert afterAuthority[0] == afterPath[0]; }
      }
    }
    IndexOfAnyAfter(au, afterAuthority, AuthorityEnd);
    assert tail[2..2 + |au|] == au;
    assert tail[2 + |au|..] == afterAuthority;
  }

  lemma SplitAbsentAuthority(path: string, afterPath: string)
    requires !(|path| >= 2 && path[..2] == "//")
    requires afterPath != [] ==> afterPath[0] in PathEnd
    ensures SplitAuthority(path + afterPath) == (None, path + afterPath)
  {
    var tail := path + afterPath;
    if |path| >= 2 {
      assert tail[..2] == path[..2];
    } else if |path| == 1 && |tail| >= 2 {
      assert tail[1] == afterPath[0];
    } else if |path| == 0 {
      assert tail == afterPath;
    }
  }

  lemma SplitQueryOf(r: Reference)
    requires WellFormed(r)
    ensures SplitQuery(QueryText(r.query) + FragmentText(r.fragment)) == (r.query, FragmentText(r.fragment))
  {
    var frag := FragmentText(r.fragment);
    var afterPath := QueryText(r.query) + frag;
    if r.query.Some? {
      var q := r.query.value;
      assert afterPath == "?" + (q + frag);
      assert afterPath[1..] == q + frag;
      IndexOfAnyAfter(q, frag, {'#'});
      assert afterPath[1..1 + |q|] == q;
      assert afterPath[1 + |q|..] == frag;
    } else {
      assert afterPath == frag;
      assert frag != [] ==> frag[0] == '#';
    }
  }

  /** Splitting a well-formed reference's text gives back the reference. */
  lemma ParseRecompose(r: Reference)
    requires WellFormed(r)
    ensures Parse(Recompose(r)) == r
  {
    var afterPath := QueryText(r.query) + FragmentText(r.fragment);
    SplitSchemeOf(r);
    SplitAuthorityOf(r);
    IndexOfAnyAfter(r.path, afterPath, PathEnd);
    assert (r.path + afterPath)[..|r.path|] == r.path;
    assert (r.path + afterPath)[|r.path|..] == afterPath;
    SplitQueryOf(r);
    var frag := FragmentText(r.fragment);
    if r.fragment.Some? {
      assert frag[1..] == r.fragment.value;
    }
  }

  /** The first stop in a prefix of s is the first stop in s, if it lies in the prefix. */
  lemma IndexOfAnyPrefix(s: string, p: nat, stops: set<char>)
    requires p <= |s|
    ensures var i := IndexOfAny(s, stops);
      IndexOfAny(s[..p], stops) == if i < p then i else p
  {
    var i := IndexOfAny(s, stops);
    if i < p {
      assert s[..p][..i] == s[..i];
      assert s[..p][i] == s[i];
      IndexOfAnyIs(s[..p], stops, i);
    } else {
      assert s[..p][..p] == s[..i][..p];
      IndexOfAnyIs(s[..p], stops, p);
    }
  }

  /** The path split off a text holds no '?' or '#'; after an authority it is
      empty or starts with '/', and without one it does not start with "//". */
  lemma SplitPathAfterAuthority(afterScheme: string)
    ensures var (authority, afterAuthority) := SplitAuthority(afterScheme);
      var path := SplitPath(afterAuthority).0;
      && NoneOf(path, PathEnd)
      && (authority.Some? ==> NoneOf(authority.value, AuthorityEnd) && (path == [] || path[0] == '/'))
      && (authority.None? ==> !(|path| >= 2 && path[..2] == "//"))
  {
    if |afterScheme| >= 2 && afterScheme[..2] == "//" {
      PathAfterPresentAuthority(afterScheme);
    } else {
      var path := SplitPath(afterScheme).0;
      if |path| >= 2 {
        assert path[..2] == afterScheme[..2];
      }
    }
  }

  /** After "//authority", the authority holds no stop and the path is empty or starts with '/'. */
  lemma PathAfterPresentAuthority(afterScheme: string)
    requires |afterScheme| >= 2 && afterScheme[..2] == "//"
    ensures var (authority, afterAuthority) := SplitAuthority(afterScheme);
      var path := SplitPath(afterAuthority).0;
      && authority.Some? && NoneOf(authority.value, AuthorityEnd) && (path == [] || path[0] == '/')
  {
    var j := 2 + IndexOfAny(afterScheme[2..], AuthorityEnd);
    assert afterScheme[2..][..j - 2] == afterScheme[2..j];
    var afterAuthority := afterScheme[j..];
    if afterAuthority != [] {
      assert afterAuthority[0] == afterScheme[2..][j - 2];
      assert afterAuthority[0] in AuthorityEnd;
    }
  }

  /** Appendix B's split yields a well-formed reference, so Parse and Recompose are
      mutually inverse between texts and well-formed references. */
  lemma ParseWellFormed(s: string)
    ensures WellFormed(Parse(s))
  {
    var r := Parse(s);
    var (scheme, afterScheme) := SplitScheme(s);
    var (authority, afterAuthority) := SplitAuthority(afterScheme);
    var (path, afterPath) := SplitPath(afterAuthority);
    SplitPathAfterAuthority(afterScheme);
    if scheme.None? && authority.None? {
      assert afterAuthority == s;
      IndexOfAnyPrefix(s, |path|, SchemeEnd);
      assert path == s[..|path|];
    }
    SplitQueryHasNoHash(afterPath);
  }

  /** A query split off a text holds no '#'. */
  lemma SplitQueryHasNoHash(t: string)
    ensures SplitQuery(t).0.Some? ==> '#' !in SplitQuery(t).0.value
  {
    if |t| >= 1 && t[0] == '?' {
      var j := 1 + IndexOfAny(t[1..], {'#'});
      assert t[1..][..j - 1] == t[1..j];
    }
  }

  // ---------------------------------------------------------------------------
  // Sections 5.2.2 and 5.2.3: reference resolution and path merging
  // ---------------------------------------------------------------------------

  /** Everything up to and including the last '/' of a path, or "" when it has no '/'. */
  function Directory(path: string): (d: string)
    ensures |d| <= |path| && d == path[..|d|]
    ensures d == [] || d[|d| - 1] == '/'
    ensures forall k :: |d| <= k < |path| ==> path[k] != '/'
  {
    if path == [] then []
    else if path[|path| - 1] == '/' then path
    else Directory(path[..|path| - 1])
  }

  /** Section 5.2.3: a relative path is put in place of the last segment of the base path. */
  function Merge(base: Reference, refPath: string): (m: string)
    ensures |m| >= |refPath| && m[|m| - |refPath|..] == refPath
    ensures var d := |m| - |refPath|;
      if base.authority.Some? && base.path == [] then m[..d] == "/"
      else && d <= |base.path| && m[..d] == base.path[..d]
           && (d == 0 || m[d - 1] == '/')
           && forall k :: d <= k < |base.path| ==> base.path[k] != '/'
  {
    if base.authority.Some? && base.path == [] then "/" + refPath
    else Directory(base.path) + refPath
  }

  /** Section 5.2.2 (without the removal of dot segments): the target of reference r seen from base. */
  function ResolveReference(base: Reference, r: Reference): (t: Reference)
    ensures t.fragment == r.fragment
  {
    if r.scheme.Some? then r
    else if r.authority.Some? then r.(scheme := base.scheme)
    else if r.path == [] then
      Reference(base.scheme, base.authority, base.path, if r.query.Some? then r.query else base.query, r.fragment)
    else if r.path[0] == '/' then
      Reference(base.scheme, base.authority, r.path, r.query, r.fragment)
    else
      Reference(base.scheme, base.authority, Merge(base, r.path), r.query, r.fragment)
  }

  /** What the target takes from the reference and what from the base: a reference
      with a scheme is its own target; otherwise the scheme, and without an
      authority also the authority, come from the base; a non-empty reference path
      ends the target path, a rooted one is the target path, and a relative one is
      merged with the base path (section 5.2.3); an empty one keeps the base path;
      a reference with an authority keeps its own path and query; the base query
      is kept only for an empty reference. */
  lemma ResolveReferenceRules(base: Reference, r: Reference)
    ensures var t := ResolveReference(base, r);
      && (r.scheme.Some? ==> t == r)
      && t.scheme == (if r.scheme.Some? then r.scheme else base.scheme)
      && t.authority == (if r.scheme.Some? || r.authority.Some? then r.authority else base.authority)
      && (r.path != [] ==> |r.path| <= |t.path| && t.path[|t.path| - |r.path|..] == r.path)
      && (r.path != [] && r.path[0] == '/' ==> t.path == r.path)
      && (r.scheme.None? && r.authority.None? && r.path == [] ==> t.path == base.path)
      && (r.scheme.None? && r.authority.None? && r.path != [] && r.path[0] != '/' ==> t.path == Merge(base, r.path))
      && (r.scheme.None? && r.authority.Some? ==> t.path == r.path && t.query == r.query)
      && t.query == (if r.scheme.None? && r.authority.None? && r.path == [] && r.query.None? then base.query else r.query)
  {
  }

  /** The URL a redirect to location leads to from the URL base. */
  function Resolve(base: string, location: string): string {
    Recompose(ResolveReference(Parse(base), Parse(location)))
  }

  /** The scheme and authority of a URL written out, as in "http://some.org". */
  function Origin(base: string): string {
    var b := Parse(base);
    SchemeText(b.scheme) + AuthorityText(b.authority)
  }

  /** A location with a scheme is taken as it is. */
  lemma ResolveAbsolute(base: string, location: string)
    requires Parse(location).scheme.Some?
    ensures Resolve(base, location) == location
  {
  }

  /** A text that starts with a scheme and a ':' splits with that scheme. */
  lemma ParseSchemeOf(scheme: string, rest: string)
    requires scheme != [] && NoneOf(scheme, SchemeEnd)
    ensures Parse(scheme + ":" + rest).scheme == Some(scheme)
  {
    var s := scheme + ":" + rest;
    assert s == scheme + (":" + rest);
    IndexOfAnyAfter(scheme, ":" + rest, SchemeEnd);
    assert s[|scheme|] == ':' && s[..|scheme|] == scheme;
  }

  /** A location written with a scheme is taken as it is, from any base. */
  lemma ResolveWithScheme(base: string, scheme: string, rest: string)
    requires scheme != [] && NoneOf(scheme, SchemeEnd)
    ensures Resolve(base, scheme + ":" + rest) == scheme + ":" + rest
  {
    ParseSchemeOf(scheme, rest);
    ResolveAbsolute(base, scheme + ":" + rest);
  }

  /** A plain path: no scheme, query or fragment characters in it. */
  predicate PlainPath(location: string) {
    NoneOf(location, SchemeEnd - {'/'})
  }

  /** How a plain path splits: everything is path. */
  lemma ParsePlainPath(location: string)
    requires PlainPath(location)
    requires !(|location| >= 2 && location[..2] == "//")
    ensures Parse(location) == Reference(None, None, location, None, None)
  {
    var r := Reference(None, None, location, None, None);
    var i := IndexOfAny(location, SchemeEnd);
    assert i < |location| ==> location[i] == '/';
    assert WellFormed(r);
    ParseRecompose(r);
    assert Recompose(r) == location;
  }

  /** A target that only replaces the path of the base is written out as the origin followed by that path. */
  lemma RecomposeWithPath(b: Reference, path: string)
    ensures Recompose(Reference(b.scheme, b.authority, path, None, None))
            == SchemeText(b.scheme) + AuthorityText(b.authority) + path
  {
    assert path + (QueryText(None) + FragmentText(None)) == path;
  }

  /** A location starting with a single '/' keeps the scheme and authority of the base and replaces its path. */
  lemma ResolveRootRelative(base: string, location: string)
    requires PlainPath(location)
    requires |location| >= 1 && location[0] == '/' && !(|location| >= 2 && location[1] == '/')
    ensures Resolve(base, location) == Origin(base) + location
  {
    ParsePlainPath(location);
    var b := Parse(base);
    assert ResolveReference(b, Parse(location)) == Reference(b.scheme, b.authority, location, None, None);
    RecomposeWithPath(b, location);
  }

  /** A location not starting with '/' replaces the last segment of the base path. */
  lemma ResolveDirectoryRelative(base: string, location: string)
    requires PlainPath(location)
    requires |location| >= 1 && location[0] != '/'
    ensures Resolve(base, location) == Origin(base) + Merge(Parse(base), location)
  {
    ParsePlainPath(location);
    var b := Parse(base);
    assert ResolveReference(b, Parse(location)) == Reference(b.scheme, b.authority, Merge(b, location), None, None);
    RecomposeWithPath(b, Merge(b, location));
  }

  /** The text a URL's origin is written as, read off its split. */
  lemma OriginOf(base: string, b: Reference)
    requires Parse(base) == b
    ensures Origin(base) == SchemeText(b.scheme) + AuthorityText(b.authority)
  {
  }

  // The facts about literal text are stated before any fact about Parse of a
  // literal enters the proof: after that point only congruence is left to do.

  /** How the base URL of the relative-redirect examples splits. */
  lemma ParseExampleBase()
    ensures Parse("http://some.org/a/b") == Reference(Some("http"), Some("some.org"), "/a/b", None, None)
    ensures Origin("http://some.org/a/b") == "http://some.org"
  {
    var b := Reference(Some("http"), Some("some.org"), "/a/b", None, None);
    assert SchemeText(b.scheme) + AuthorityText(b.authority) == "http://some.org";
    assert Recompose(b) == "http://some.org/a/b";
    assert WellFormed(b);
    ParseRecompose(b);
    OriginOf("http://some.org/a/b", b);
  }

  /** A relative path from http://some.org/a/b replaces its last segment "b". */
  lemma DirectoryRelativeExample(location: string, expected: string)
    requires PlainPath(location) && |location| >= 1 && location[0] != '/'
    requires "http://some.org/a/" + location == expected
    ensures Resolve("http://some.org/a/b", location) == expected
  {
    var b := Reference(Some("http"), Some("some.org"), "/a/b", None, None);
    assert Directory("/a/b") == "/a/";
    assert "http://some.org" + Merge(b, location) == expected;
    ParseExampleBase();
    ResolveDirectoryRelative("http://some.org/a/b", location);
  }

  /** The five relative redirects resolved against http://some.org/a/b. */
  lemma RelativeLocationExamples()
    ensures Resolve("http://some.org/a/b", "z") == "http://some.org/a/z"
    ensures Resolve("http://some.org/a/b", "z/") == "http://some.org/a/z/"
    ensures Resolve("http://some.org/a/b", "/z") == "http://some.org/z"
    ensures Resolve("http://some.org/a/b", "x/z") == "http://some.org/a/x/z"
    ensures Resolve("http://some.org/a/b", "http://other.org/c") == "http://other.org/c"
  {
    assert PlainPath("z") && PlainPath("z/") && PlainPath("x/z");
    assert "http://some.org/a/" + "z" == "http://some.org/a/z";
    assert "http://some.org/a/" + "z/" == "http://some.org/a/z/";
    assert "http://some.org/a/" + "x/z" == "http://some.org/a/x/z";
    DirectoryRelativeExample("z", "http://some.org/a/z");
    DirectoryRelativeExample("z/", "http://some.org/a/z/");
    DirectoryRelativeExample("x/z", "http://some.org/a/x/z");
    RootRelativeExample();
    OtherOriginExample();
  }

  /** "/z" from http://some.org/a/b replaces the whole path. */
  lemma RootRelativeExample()
    ensures Resolve("http://some.org/a/b", "/z") == "http://some.org/z"
  {
    assert PlainPath("/z");
    assert "http://some.org" + "/z" == "http://some.org/z";
    ParseExampleBase();
    ResolveRootRelative("http://some.org/a/b", "/z");
  }

  /** A location on another host is taken as it is. */
  lemma OtherOriginExample()
    ensures Resolve("http://some.org/a/b", "http://other.org/c") == "http://other.org/c"
  {
    assert "http" + ":" + "//other.org/c" == "http://other.org/c";
    ResolveWithScheme("http://some.org/a/b", "http", "//other.org/c");
  }

  /** The absolute Location of the handleRedirect examples replaces any base. */
  lemma AbsoluteLocationExample(base: string)
    ensures Resolve(base, "http://redirect/location") == "http://redirect/location"
  {
    assert "http" + ":" + "//redirect/location" == "http://redirect/location";
    ResolveWithScheme(base, "http", "//redirect/location");
  }
}
