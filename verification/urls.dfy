/**
 * URLs as the client handles them: the base URL's components, relative
 * references, and their resolution against the base as RFC 3986 section 5.2.2
 * defines it, with the merge of section 5.2.3. Only references without scheme,
 * authority, fragment, percent escapes and dot segments are resolved here; the
 * dot-segment removal of section 5.2.4 is not part of this model.
 */
module Urls {
  import opened Wrappers
  import opened Text

  /**
   * The components of a net/url URL that the client reads or changes. `query` is
   * None when the URL has no '?', and Some(q) for the raw query q after it.
   */
  datatype Url = Url(scheme: string, host: string, path: string, query: Option<string>)

  /** A relative reference: the path before the first '?' and the query after it. */
  datatype Reference = Reference(path: string, query: Option<string>)

  /** How net/url splits a reference without fragment into path and raw query. */
  function SplitReference(s: string): (r: Reference)
    ensures r.query.None? ==> r.path == s && '?' !in s
    ensures r.query.Some? ==> s == r.path + "?" + r.query.value && '?' !in r.path
  {
    var (before, after, found) := Cut(s, '?');
    Reference(before, if found then Some(after) else None)
  }

  /**
   * Characters after which net/url would not read a reference as a plain path and
   * query: a fragment mark, a percent escape, a scheme or port colon, and the
   * control characters it rejects.
   */
  predicate Delimiting(c: char) {
    c == '#' || c == '%' || c == ':' || c < ' ' || c == '\U{7F}'
  }

  predicate NoDelimiting(s: string) {
    forall i :: 0 <= i < |s| ==> !Delimiting(s[i])
  }

  lemma NoDelimitingConcat(a: string, b: string)
    requires NoDelimiting(a) && NoDelimiting(b)
    ensures NoDelimiting(a + b)
  {
    forall i | 0 <= i < |a + b| ensures !Delimiting((a + b)[i]) {
      if i >= |a| {
        assert (a + b)[i] == b[i - |a|];
      }
    }
  }

  /** `p[i]` begins a path segment that is "." or ".." (RFC 3986 section 3.3). */
  predicate DotSegmentAt(p: string, i: nat)
    requires i < |p|
  {
    && p[i] == '.'
    && (i == 0 || p[i - 1] == '/')
    && (i + 1 == |p| || p[i + 1] == '/' || (p[i + 1] == '.' && (i + 2 == |p| || p[i + 2] == '/')))
  }

  predicate NoDotSegments(p: string) {
    forall i :: 0 <= i < |p| ==> !DotSegmentAt(p, i)
  }

  /** A single segment without '/' is a dot segment only when it is "." or "..". */
  lemma PlainSegment(seg: string)
    requires '/' !in seg && seg != "." && seg != ".."
    ensures NoDotSegments(seg)
  {
  }

  /** Joining two paths with '/' creates no dot segment that was not in one of them. */
  lemma {:induction false} NoDotSegmentsJoin(a: string, b: string)
    requires NoDotSegments(a) && NoDotSegments(b)
    ensures NoDotSegments(a + "/" + b)
  {
    var p := a + "/" + b;
    forall i | 0 <= i < |p| ensures !DotSegmentAt(p, i) {
      if i < |a| {
        assert p[i] == a[i];
        if i > 0 { assert p[i - 1] == a[i - 1]; }
        if i + 1 < |a| { assert p[i + 1] == a[i + 1]; }
        if i + 2 < |a| { assert p[i + 2] == a[i + 2]; }
        assert !DotSegmentAt(a, i);
      } else if i > |a| {
        var j := i - |a| - 1;
        assert p[i] == b[j];
        if j > 0 { assert p[i - 1] == b[j - 1]; }
        if j + 1 < |b| { assert p[i + 1] == b[j + 1]; }
        if j + 2 < |b| { assert p[i + 2] == b[j + 2]; }
        assert !DotSegmentAt(b, j);
      }
    }
  }

  /**
   * The references this model resolves itself: no scheme, authority, fragment,
   * escape or dot segment, and no leading '/', as NewRequest's documentation asks
   * of relative paths.
   */
  predicate ModelledReference(s: string) {
    NoDelimiting(s) && !StartsWith(s, "/") && NoDotSegments(SplitReference(s).path)
  }

  /** The base path up to and including its last '/', or "" when it has none. */
  function Directory(p: string): (d: string)
    ensures |d| <= |p| && p[..|d|] == d
    ensures d == "" || d[|d| - 1] == '/'
    ensures '/' !in p[|d|..]
  {
    if p == "" then ""
    else if p[|p| - 1] == '/' then p
    else
      var d := Directory(p[..|p| - 1]);
      assert p[|d|..] == p[..|p| - 1][|d|..] + [p[|p| - 1]];
      d
  }

  /** merge (RFC 3986 section 5.2.3): the reference path appended to the base's directory. */
  function Merge(base: Url, refPath: string): string {
    if base.host != "" && base.path == "" then "/" + refPath
    else Directory(base.path) + refPath
  }

  /** net/url returns every non-empty resolved path with a single leading '/'. */
  function Rooted(p: string): string {
    if p == "" || p[0] == '/' then p else "/" + p
  }

  /**
   * Reference resolution (RFC 3986 section 5.2.2) for a reference without scheme,
   * authority and fragment: scheme and host come from the base; an empty
   * reference path keeps the base path, and the base query unless the reference
   * has one; an absolute path replaces the base path; any other path is merged.
   */
  function Resolve(base: Url, r: Reference): Url {
    var path :=
      if r.path == "" then base.path
      else if r.path[0] == '/' then r.path
      else Merge(base, r.path);
    var query := if r.path == "" && r.query.None? then base.query else r.query;
    Url(base.scheme, base.host, Rooted(path), query)
  }

  /**
   * Against a base whose path starts and ends with '/', a modelled reference with a
   * non-empty path resolves to the base path followed by the reference path, with the
   * reference's query; scheme and host are the base's.
   */
  lemma ResolveUnderDirectory(base: Url, s: string)
    requires StartsWith(base.path, "/") && EndsWith(base.path, "/")
    requires ModelledReference(s) && SplitReference(s).path != ""
    ensures Resolve(base, SplitReference(s))
         == Url(base.scheme, base.host, base.path + SplitReference(s).path, SplitReference(s).query)
  {
    var r := SplitReference(s);
    assert r.path[0] == s[0];
    assert s[..1] == [s[0]];
    assert Directory(base.path) == base.path;
  }

  /**
   * How net/url's String renders these components for a URL with a scheme and a
   * host (no escaping, no user or fragment). An empty scheme or an empty host and
   * path render differently in net/url ("//host", "http:"); this client's base URLs have both.
   */
  function UrlString(u: Url): string {
    u.scheme + "://" + u.host + u.path + (if u.query.Some? then "?" + u.query.value else "")
  }
}
