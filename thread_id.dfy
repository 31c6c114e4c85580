/**
 * Thread-id derivation of the NM Firebase loader: `cleanPath` and the
 * immediately invoked function that publishes `nmComments.getThreadId()`.
 *
 * The DOM and URL lookups are inputs: the explicit `canonicalPath` of the
 * page's `NM_THREAD` object, the outcome of reading the canonical link and
 * parsing its href, and `location.pathname`.
 */
module ThreadId {
  import Decimal

  datatype Option<T> = None | Some(value: T)

  /** Outcome of `document.querySelector('link[rel="canonical"]')` followed by
      `new URL(ln.href, location.origin).pathname`. */
  datatype CanonicalLink =
    | NoLink                   // no such element, or its href is empty
    | Link(pathname: string)   // the parsed pathname
    | Threw                    // the lookup or the URL parser threw

  /** The JavaScript values of `NM_THREAD.postId` the model covers;
      `NoPostId` stands for undefined, null and false. */
  datatype PostId = NoPostId | NumberId(n: int) | StringId(s: string)

  /** `window.NM_THREAD`; `None` when it is missing or falsy (then `{}` is used). */
  datatype ThreadMeta = ThreadMeta(postId: PostId, canonicalPath: Option<string>)

  /** JavaScript truthiness of an optional string. */
  predicate Truthy(p: Option<string>) {
    p.Some? && p.value != ""
  }

  predicate PostIdTruthy(id: PostId) {
    match id
    case NoPostId => false
    case NumberId(n) => n != 0
    case StringId(s) => s != ""
  }

  /** `String(postId)`, as `'post:' + postId` renders it: a number prints
      its decimal text, so only the empty string prints as nothing. */
  function PostIdText(id: PostId): (r: string)
    requires !id.NoPostId?
    ensures r == "" <==> id == StringId("")
    ensures id.NumberId? ==> (r[0] == '-' <==> id.n < 0)
  {
    match id
    case NumberId(n) => Decimal.NumberToString(n)
    case StringId(s) => s
  }

  // ---------------------------------------------------------------------
  // Choosing the path
  // ---------------------------------------------------------------------

  /** The string `cleanPath` starts from: a truthy explicit path, else the
      canonical link's pathname, else `location.pathname`, else `'/'`. */
  function PathSource(explicit: Option<string>, canonical: CanonicalLink, location: string): (r: string)
    ensures r != ""
    ensures r == "/" || r == location || (explicit.Some? && r == explicit.value)
         || (canonical.Link? && r == canonical.pathname)
  {
    var p := if Truthy(explicit) then explicit.value
             else if canonical.Link? then canonical.pathname
             else "";
    if p != "" then p else if location != "" then location else "/"
  }

  // ---------------------------------------------------------------------
  // Stripping a trailing index file: `.replace(/\/index\.html?$/i, '/')`
  // ---------------------------------------------------------------------

  /** The `i` flag without `u` folds ASCII letters only. */
  function AsciiLower(c: char): char {
    if 'A' <= c <= 'Z' then (c as int + 32) as char else c
  }

  /** `w` is what the regular expression's `\/index\.html?` matches, letters
      compared up to ASCII case. */
  predicate IsIndexSuffix(w: string)
  {
    && (|w| == 10 || |w| == 11)
    && w[0] == '/'
    && AsciiLower(w[1]) == 'i' && AsciiLower(w[2]) == 'n' && AsciiLower(w[3]) == 'd'
    && AsciiLower(w[4]) == 'e' && AsciiLower(w[5]) == 'x'
    && w[6] == '.'
    && AsciiLower(w[7]) == 'h' && AsciiLower(w[8]) == 't' && AsciiLower(w[9]) == 'm'
    && (|w| == 11 ==> AsciiLower(w[10]) == 'l')
  }

  /** The length of the index suffix `s` ends with, or 0 when it has none. */
  function IndexSuffixLength(s: string): nat {
    if |s| >= 10 && IsIndexSuffix(s[|s| - 10..]) then 10
    else if |s| >= 11 && IsIndexSuffix(s[|s| - 11..]) then 11
    else 0
  }

  /** At most one index suffix, at the very end, is replaced by `/`; the
      text before it is kept and a string without one is returned as is. */
  function StripIndex(s: string): (r: string)
    ensures r == s || (|s| - |r| in {9, 10} && |r| >= 1 && r[..|r| - 1] == s[..|r| - 1] && r[|r| - 1] == '/')
  {
    var k := IndexSuffixLength(s);
    if k == 0 then s else s[..|s| - k] + "/"
  }

  /** What the pattern matches: ten or eleven characters, starting with `/`
      and ending in `m` or `l` up to case, never in `/`. */
  lemma IndexSuffixLastChar(w: string)
    requires IsIndexSuffix(w)
    ensures (|w| == 10 || |w| == 11) && w[0] == '/' && w[6] == '.'
    ensures |w| == 10 ==> AsciiLower(w[9]) == 'm'
    ensures |w| == 11 ==> AsciiLower(w[10]) == 'l'
    ensures AsciiLower(w[|w| - 1]) != '/'
  {
  }

  lemma LiteralIndexSuffixes()
    ensures IsIndexSuffix("/index.html") && IsIndexSuffix("/INDEX.HTM")
  {
    assert "/index.html"[0] == '/' && "/INDEX.HTM"[0] == '/';
  }

  /** A string ending in an index suffix loses exactly that suffix, which
      becomes one `/`; everything before it is kept. */
  lemma StripIndexReplacesSuffix(u: string, w: string)
    requires IsIndexSuffix(w)
    ensures StripIndex(u + w) == u + "/"
  {
    var s := u + w;
    IndexSuffixLastChar(w);
    if |w| == 10 {
      assert s[|s| - 10..] == w;
    } else {
      assert !IsIndexSuffix(s[|s| - 10..]) by {
        assert s[|s| - 1] == w[10];
      }
      assert s[|s| - 11..] == w;
    }
    assert s[..|s| - |w|] == u;
  }

  /** A string with no index suffix at its end is left exactly as it is. */
  lemma StripIndexKeepsOthers(s: string)
    requires forall k | 0 <= k <= |s| :: !IsIndexSuffix(s[k..])
    ensures StripIndex(s) == s
  {
    if |s| >= 10 { assert !IsIndexSuffix(s[|s| - 10..]); }
    if |s| >= 11 { assert !IsIndexSuffix(s[|s| - 11..]); }
  }

  /** A string whose last character is neither `m` nor `l` (in either case)
      carries no index suffix; in particular one ending in `/`. */
  lemma NoIndexLetterAtEnd(t: string)
    requires |t| > 0 && AsciiLower(t[|t| - 1]) != 'm' && AsciiLower(t[|t| - 1]) != 'l'
    ensures StripIndex(t) == t
  {
    if |t| >= 10 {
      var w := t[|t| - 10..];
      assert w[9] == t[|t| - 1];
      assert !IsIndexSuffix(w);
    }
    if |t| >= 11 {
      var w := t[|t| - 11..];
      assert w[10] == t[|t| - 1];
      assert !IsIndexSuffix(w);
    }
  }

  lemma EndsInSlashUnchanged(t: string)
    requires |t| > 0 && t[|t| - 1] == '/'
    ensures StripIndex(t) == t
  {
    NoIndexLetterAtEnd(t);
  }

  /** After the strip the string ends in `/` or carries no index suffix, so a
      second strip changes nothing. */
  lemma StripIndexIdempotent(s: string)
    ensures StripIndex(StripIndex(s)) == StripIndex(s)
  {
    var t := StripIndex(s);
    if t != s {
      EndsInSlashUnchanged(t);
    }
  }

  // ---------------------------------------------------------------------
  // cleanPath
  // ---------------------------------------------------------------------

  /** The `if (p.charAt(0) !== '/') p = '/' + p` step. */
  function Rooted(p: string): (r: string)
    ensures |r| > 0 && r[0] == '/'
    ensures |p| > 0 && p[0] == '/' ==> r == p
    ensures !(|p| > 0 && p[0] == '/') ==> r[1..] == p
  {
    if |p| > 0 && p[0] == '/' then p else "/" + p
  }

  function CleanPath(explicit: Option<string>, canonical: CanonicalLink, location: string): (r: string)
    ensures |r| > 0 && r[0] == '/'
  {
    Rooted(StripIndex(PathSource(explicit, canonical, location)))
  }

  /** A source that is a bare `index.htm` or `index.html`, with no slash:
      prefixing the `/` turns it into an index suffix. */
  predicate IsBareIndex(p: string) {
    IsIndexSuffix("/" + p)
  }

  lemma BareIndexNotStripped(src: string)
    requires IsBareIndex(src)
    ensures StripIndex(src) == src && src[0] != '/'
  {
    assert ("/" + src)[1] == src[0];
    if |src| >= 10 {
      assert src[|src| - 10..] == src;
    }
  }

  /** For a source the strip left alone, prepending `/` creates an index
      suffix exactly when the source is a bare index file name. */
  lemma RootingExposesBareIndex(src: string)
    requires IndexSuffixLength(src) == 0
    ensures IndexSuffixLength("/" + src) != 0 <==> IsBareIndex(src)
  {
    var r := "/" + src;
    if |src| >= 10 {
      assert r[|r| - 10..] == src[|src| - 10..];
    } else if |src| == 9 {
      assert r[|r| - 10..] == r;
    }
    if |src| >= 11 {
      assert r[|r| - 11..] == src[|src| - 11..];
    } else if |src| == 10 {
      assert r[|r| - 11..] == r;
    }
  }

  /** One pass of `cleanPath` over a chosen source. */
  function CleanSource(src: string): string {
    Rooted(StripIndex(src))
  }

  lemma CleanTwiceBare(src: string)
    requires IsBareIndex(src)
    ensures CleanSource(CleanSource(src)) == "/" != CleanSource(src)
  {
    BareIndexNotStripped(src);
    var r := "/" + src;
    assert CleanSource(src) == r;
    assert |r| >= 10;
    StripIndexReplacesSuffix("", r);
    assert "" + r == r;
    assert StripIndex(r) == "/";
    assert CleanSource(r) == "/";
  }

  lemma CleanTwiceStripped(src: string)
    requires StripIndex(src) != src
    ensures CleanSource(CleanSource(src)) == CleanSource(src)
  {
    var r := CleanSource(src);
    assert StripIndex(src)[|StripIndex(src)| - 1] == '/';
    assert r[|r| - 1] == '/';
    EndsInSlashUnchanged(r);
  }

  lemma CleanTwiceUnrooted(src: string)
    requires StripIndex(src) == src && !IsBareIndex(src)
    requires !(|src| > 0 && src[0] == '/')
    ensures CleanSource(CleanSource(src)) == CleanSource(src)
  {
    RootingExposesBareIndex(src);
    assert CleanSource(src) == "/" + src;
  }

  /** `cleanPath` applied to its own result (as the source) gives the result
      back exactly when the source is not a bare index file name. */
  lemma CleanSourceIdempotent(src: string)
    ensures CleanSource(CleanSource(src)) == CleanSource(src) <==> !IsBareIndex(src)
  {
    if IsBareIndex(src) {
      CleanTwiceBare(src);
    } else if StripIndex(src) != src {
      CleanTwiceStripped(src);
    } else if |src| > 0 && src[0] == '/' {
      assert CleanSource(src) == src;
    } else {
      CleanTwiceUnrooted(src);
    }
  }

  /** Feeding the result of `cleanPath` back to it as the explicit path gives
      the same path, except when the path came from a bare `index.htm(l)`:
      the strip runs before the leading `/` is added, so `index.html` becomes
      `/index.html`, which a second pass turns into `/`. */
  lemma CleanPathIdempotent(explicit: Option<string>, canonical: CanonicalLink, location: string,
                            canonical': CanonicalLink, location': string)
    ensures var r := CleanPath(explicit, canonical, location);
            CleanPath(Some(r), canonical', location') == r
            <==> !IsBareIndex(PathSource(explicit, canonical, location))
  {
    var src := PathSource(explicit, canonical, location);
    var r := CleanPath(explicit, canonical, location);
    assert r == CleanSource(src);
    assert PathSource(Some(r), canonical', location') == r;
    assert CleanPath(Some(r), canonical', location') == CleanSource(r);
    CleanSourceIdempotent(src);
  }

  /** Every path whose source already starts with `/` is a fixed point of a
      second `cleanPath`. */
  lemma CleanPathIdempotentWhenRooted(explicit: Option<string>, canonical: CanonicalLink, location: string)
    requires PathSource(explicit, canonical, location)[0] == '/'
    ensures var r := CleanPath(explicit, canonical, location);
            CleanPath(Some(r), canonical, location) == r
  {
    var src := PathSource(explicit, canonical, location);
    assert !IsBareIndex(src) by { assert ("/" + src)[1] == src[0]; }
    CleanPathIdempotent(explicit, canonical, location, canonical, location);
  }

  /** A truthy explicit path wins: the canonical link and `location.pathname`
      are never consulted, and a lookup that threw is the same as no link. */
  lemma PathSourcePrecedence(explicit: Option<string>, canonical: CanonicalLink, location: string,
                             canonical': CanonicalLink, location': string)
    ensures Truthy(explicit) ==> PathSource(explicit, canonical, location) == explicit.value
                                 == PathSource(explicit, canonical', location')
    ensures !Truthy(explicit) && canonical.Link? && canonical.pathname != "" ==>
              PathSource(explicit, canonical, location) == canonical.pathname
    ensures PathSource(explicit, Threw, location) == PathSource(explicit, NoLink, location)
    ensures !Truthy(explicit) && !(canonical.Link? && canonical.pathname != "") ==>
              PathSource(explicit, canonical, location) == (if location != "" then location else "/")
  {
  }

  // ---------------------------------------------------------------------
  // The thread identifier
  // ---------------------------------------------------------------------

  function MetaOrEmpty(meta: Option<ThreadMeta>): ThreadMeta {
    if meta.Some? then meta.value else ThreadMeta(NoPostId, None)
  }

  /** `m.postId ? 'post:' + m.postId : 'path:' + cleanPath(m.canonicalPath)`
      with `m = window.NM_THREAD || {}`. */
  function ComputeThreadId(meta: Option<ThreadMeta>, canonical: CanonicalLink, location: string): (id: string)
    ensures |id| > 5
    ensures id[..5] == "post:" <==> PostIdTruthy(MetaOrEmpty(meta).postId)
    ensures id[..5] == "path:" <==> !PostIdTruthy(MetaOrEmpty(meta).postId)
  {
    var m := MetaOrEmpty(meta);
    if PostIdTruthy(m.postId) then "post:" + PostIdText(m.postId)
    else "path:" + CleanPath(m.canonicalPath, canonical, location)
  }

  /** A truthy post id decides the identifier alone: the paths play no part. */
  lemma PostIdDecides(postId: PostId, path: Option<string>, path': Option<string>,
                      canonical: CanonicalLink, location: string, canonical': CanonicalLink, location': string)
    requires PostIdTruthy(postId)
    ensures ComputeThreadId(Some(ThreadMeta(postId, path)), canonical, location)[5..] == PostIdText(postId)
    ensures ComputeThreadId(Some(ThreadMeta(postId, path)), canonical, location)
         == ComputeThreadId(Some(ThreadMeta(postId, path')), canonical', location')
  {
  }

  /** Without a truthy post id the identifier is `path:` and the cleaned path,
      which starts with `/`. */
  lemma PathIdWithoutPostId(meta: Option<ThreadMeta>, canonical: CanonicalLink, location: string)
    requires !PostIdTruthy(MetaOrEmpty(meta).postId)
    ensures var id := ComputeThreadId(meta, canonical, location);
            id[5..] == CleanPath(MetaOrEmpty(meta).canonicalPath, canonical, location) && id[5] == '/'
  {
  }

  /** Distinct numeric post ids yield distinct thread identifiers. */
  lemma NumericPostIdsDistinct(a: int, b: int, canonical: CanonicalLink, location: string)
    requires a != 0 && b != 0 && a != b
    ensures ComputeThreadId(Some(ThreadMeta(NumberId(a), None)), canonical, location)
         != ComputeThreadId(Some(ThreadMeta(NumberId(b), None)), canonical, location)
  {
    var ia := ComputeThreadId(Some(ThreadMeta(NumberId(a), None)), canonical, location);
    var ib := ComputeThreadId(Some(ThreadMeta(NumberId(b), None)), canonical, location);
    if ia == ib {
      assert ia[5..] == Decimal.NumberToString(a);
      assert ib[5..] == Decimal.NumberToString(b);
      Decimal.NumberToStringInjective(a, b);
    }
  }

  /** `{postId: 42}` gives `post:42`. */
  lemma ScenarioNumericPostId(canonical: CanonicalLink, location: string)
    ensures ComputeThreadId(Some(ThreadMeta(NumberId(42), None)), canonical, location) == "post:42"
  {
    assert Decimal.Digits(4) == "4";
    assert Decimal.Digits(42) == "42";
  }

  /** `{}` with canonical link `https://x.com/foo/index.html` gives `path:/foo/`. */
  lemma ScenarioCanonicalLink(location: string)
    ensures ComputeThreadId(Some(ThreadMeta(NoPostId, None)), Link("/foo/index.html"), location) == "path:/foo/"
  {
    LiteralIndexSuffixes();
    StripIndexReplacesSuffix("/foo", "/index.html");
    assert "/foo" + "/index.html" == "/foo/index.html";
    assert PathSource(None, Link("/foo/index.html"), location) == "/foo/index.html";
    assert StripIndex("/foo/index.html") == "/foo/";
    assert CleanPath(None, Link("/foo/index.html"), location) == "/foo/";
    assert ComputeThreadId(Some(ThreadMeta(NoPostId, None)), Link("/foo/index.html"), location) == "path:" + "/foo/";
  }

  /** No metadata and no canonical link: the current path is used as it is. */
  lemma ScenarioLocation()
    ensures ComputeThreadId(None, NoLink, "/blog/post1") == "path:/blog/post1"
  {
    var p := "/blog/post1";
    assert PathSource(None, NoLink, p) == p;
    assert p[|p| - 1] == '1' && AsciiLower('1') == '1';
    NoIndexLetterAtEnd(p);
    assert CleanPath(None, NoLink, p) == p;
  }

  /** An explicit `/a/b/index.html` gives `path:/a/b/`. */
  lemma ScenarioExplicitIndex(canonical: CanonicalLink, location: string)
    ensures ComputeThreadId(Some(ThreadMeta(NoPostId, Some("/a/b/index.html"))), canonical, location) == "path:/a/b/"
  {
    var m := Some(ThreadMeta(NoPostId, Some("/a/b/index.html")));
    LiteralIndexSuffixes();
    StripIndexReplacesSuffix("/a/b", "/index.html");
    assert "/a/b" + "/index.html" == "/a/b/index.html";
    assert PathSource(Some("/a/b/index.html"), canonical, location) == "/a/b/index.html";
    assert StripIndex("/a/b/index.html") == "/a/b/";
    assert CleanPath(Some("/a/b/index.html"), canonical, location) == "/a/b/";
    assert ComputeThreadId(m, canonical, location) == "path:" + "/a/b/";
  }

  /** An empty path everywhere gives `path:/`. */
  lemma ScenarioEmpty()
    ensures ComputeThreadId(Some(ThreadMeta(NoPostId, Some(""))), NoLink, "") == "path:/"
  {
    assert PathSource(Some(""), NoLink, "") == "/";
    EndsInSlashUnchanged("/");
    assert CleanPath(Some(""), NoLink, "") == "/";
  }

  /** The strip is anchored at the end and runs before the leading `/` is added. */
  lemma StripOrderExamples()
    ensures CleanPath(Some("/index.html/x"), NoLink, "/") == "/index.html/x"
    ensures CleanPath(Some("index.html"), NoLink, "/") == "/index.html"
    ensures CleanPath(Some("/a/INDEX.HTM"), NoLink, "/") == "/a/"
  {
    assert PathSource(Some("/index.html/x"), NoLink, "/") == "/index.html/x";
    NoIndexLetterAtEnd("/index.html/x");
    assert StripIndex("/index.html/x") == "/index.html/x";

    assert PathSource(Some("index.html"), NoLink, "/") == "index.html";
    assert !IsIndexSuffix("index.html") by { assert "index.html"[0] == 'i'; }
    assert IndexSuffixLength("index.html") == 0;
    assert StripIndex("index.html") == "index.html";

    assert PathSource(Some("/a/INDEX.HTM"), NoLink, "/") == "/a/INDEX.HTM";
    LiteralIndexSuffixes();
    StripIndexReplacesSuffix("/a", "/INDEX.HTM");
    assert "/a" + "/INDEX.HTM" == "/a/INDEX.HTM";
    assert StripIndex("/a/INDEX.HTM") == "/a/";
  }
}
