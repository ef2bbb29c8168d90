/** The image URL rewriter `makeUrl(input, options)`.

    Given a URL or site path and an options record it returns the string to
    put in an image's `src`. Inputs whose options name no recognised image
    kind come back untouched. For a recognised kind the rewriter
      1. prefixes a relative path with the media path and the kind's base
         directory, unless the path already sits there;
      2. in `onboard` mode, turns a URL that begins with the media-backend URL
         back into a path starting at the media path; in `backend` mode,
         puts the backend origin in front of a relative path under the media
         path;
      3. appends the optimisation query `auto=webp&format=pjpg` followed by
         the sizing options, without duplicating a query that is already
         there.

    The ambient configuration the rewriter reads from the hosting page is an
    explicit `MediaConfig` argument here. */
module ImageUrl {
  import opened Optionals
  import opened Strings
  import opened Query
  import opened ImageOptions

  /** Where optimised images are served from: `onboard` serves them relative
      to the storefront, `backend` serves them from the media backend. */
  datatype OriginMode = Onboard | Backend

  /** The media backend: its scheme and host (`https://cdn.origin:8000`), and
      a base path under that host, empty or such as `/venia`. */
  datatype MediaBackend = MediaBackend(origin: string, basePath: string)

  /** The ambient configuration: the media path (`/media`), the media
      backend if one is configured, and the optimising-origin mode. */
  datatype MediaConfig = MediaConfig(mediaPath: string, backend: Option<MediaBackend>, mode: OriginMode)

  /** Configuration with the media path `/media` and no backend rewriting. */
  const DefaultConfig := MediaConfig("/media", None, Onboard)

  /** What the rewriter does with a query string already on the input that
      is neither empty nor the one it would write: given the existing and
      the generated query, the query to keep. Left as a parameter because no
      behaviour is fixed for that case. */
  type QueryMerge = (string, string) -> string

  /** The media-backend URL: the place media lives on the backend, such as
      `https://cdn.origin:8000/venia/media`. */
  function MediaBackendUrl(b: MediaBackend, mediaPath: string): string
  {
    b.origin + b.basePath + mediaPath
  }

  /** An absolute URL: one with a `data:`, `http:` or `https:` scheme. */
  predicate IsAbsolute(s: string)
  {
    "data:" <= s || "http:" <= s || "https:" <= s
  }

  /** A configuration as a hosting page supplies it: the media path is a
      site path, the backend origin is an absolute URL, and none of them
      holds a `?`. */
  predicate WellFormed(cfg: MediaConfig)
  {
    && |cfg.mediaPath| >= 1 && cfg.mediaPath[0] == '/' && '?' !in cfg.mediaPath
    && (cfg.backend.Some? ==>
          IsAbsolute(cfg.backend.value.origin)
          && '?' !in cfg.backend.value.origin && '?' !in cfg.backend.value.basePath)
  }

  /** `path`, followed by `?` and `query` when the query is not empty. */
  function WithQuery(path: string, query: string): string
  {
    if query == "" then path else path + "?" + query
  }

  /** Cuts a URL at its first `?` into the part before it and the query
      after it; the query is empty when there is no `?`. */
  function SplitQuery(url: string): (parts: (string, string))
    ensures '?' !in parts.0
    ensures url == parts.0 || url == parts.0 + "?" + parts.1
    ensures url == parts.0 <==> '?' !in url
  {
    var i := IndexOf(url, '?');
    if i == |url| then (url, "")
    else
      assert url == url[..i] + "?" + url[i + 1..];
      (url[..i], url[i + 1..])
  }

  /** Splitting a path put together with `WithQuery` gives back its parts. */
  lemma SplitWithQuery(path: string, query: string)
    requires '?' !in path
    ensures SplitQuery(WithQuery(path, query)) == (path, query)
  {
    if query != "" {
      IndexOfAfter(path, '?', query);
      var u := path + "?" + query;
      assert u == path + ['?'] + query;
      assert u[..|path|] == path;
      assert u[|path| + 1..] == query;
    }
  }

  /** `dir` and `path` with exactly one `/` between them, given that `dir`
      does not end in one. */
  function Join(dir: string, path: string): (r: string)
    ensures dir <= r
  {
    if |path| > 0 && path[0] == '/' then dir + path else dir + "/" + path
  }

  /** The path already sits in the kind's base directory, given either
      from the site root or from the media path. */
  predicate AlreadyUnder(path: string, base: string, mediaPath: string)
  {
    base <= path || mediaPath + base <= path
  }

  /** The path needs no media prefix for images of kind `k`: the kind has
      no base directory, or the path already sits in it. */
  predicate InPlace(path: string, k: ImageKind, mediaPath: string)
  {
    BaseDir(k).None? || AlreadyUnder(path, BaseDir(k).value, mediaPath)
  }

  /** Step 1: a relative path not yet in place gets the media path and the
      kind's base directory in front; absolute URLs are never prefixed. */
  function Prefixed(path: string, k: ImageKind, mediaPath: string): string
  {
    if IsAbsolute(path) || InPlace(path, k, mediaPath) then path
    else Join(mediaPath + BaseDir(k).value, path)
  }

  /** Step 2: the origin rewriting of the optimising-origin mode. */
  function Relocated(p: string, cfg: MediaConfig): string
  {
    match cfg.backend
    case None => p
    case Some(b) =>
      match cfg.mode
      case Onboard =>
        if MediaBackendUrl(b, cfg.mediaPath) <= p then p[|b.origin + b.basePath|..] else p
      case Backend =>
        if !IsAbsolute(p) && cfg.mediaPath <= p then b.origin + p else p
  }

  /** The location part of the rewritten URL: steps 1 and 2 in order. */
  function Locate(path: string, k: ImageKind, cfg: MediaConfig): string
  {
    Relocated(Prefixed(path, k, cfg.mediaPath), cfg)
  }

  /** Step 3: the query to write. An absent query and one identical to the
      generated query both become the generated query, so an existing
      identical query is not duplicated; any other existing query is left
      to `merge`. */
  function MergeQuery(existing: string, generated: string, merge: QueryMerge): string
  {
    if existing == "" || existing == generated then generated else merge(existing, generated)
  }

  /** `makeUrl(input, options)` under the configuration `cfg`. */
  function MakeUrl(input: string, opts: Options, cfg: MediaConfig, merge: QueryMerge): (r: string)
    ensures Kind(opts).None? ==> r == input
    ensures Kind(opts).Some? ==> '?' in r
  {
    match Kind(opts)
    case None => input
    case Some(k) =>
      var (path, existing) := SplitQuery(input);
      var located := Locate(path, k, cfg);
      var query := MergeQuery(existing, QueryOf(opts), merge);
      assert (located + "?" + query)[|located|] == '?';
      located + "?" + query
  }

  /** The input carries no query, or exactly the one the rewriter writes
      for `opts`. */
  predicate FreshOrSameQuery(input: string, opts: Options)
  {
    SplitQuery(input).1 == "" || SplitQuery(input).1 == QueryOf(opts)
  }

  /** Prefix facts the proofs below lean on. */
  lemma PrefixOfAppend(a: string, b: string, c: string)
    requires a <= b
    ensures a <= b + c
  {
    assert (b + c)[..|a|] == b[..|a|];
  }

  lemma AbsoluteAppend(a: string, b: string)
    requires IsAbsolute(a)
    ensures IsAbsolute(a + b)
  {
    if "data:" <= a { PrefixOfAppend("data:", a, b); }
    if "http:" <= a { PrefixOfAppend("http:", a, b); }
    if "https:" <= a { PrefixOfAppend("https:", a, b); }
  }

  /** A path that starts with `/` is not an absolute URL. */
  lemma RootedNotAbsolute(s: string)
    requires |s| >= 1 && s[0] == '/'
    ensures !IsAbsolute(s)
  {
    assert "data:"[0] != s[0] && "http:"[0] != s[0] && "https:"[0] != s[0];
  }

  /** Under a well-formed configuration, only absolute URLs begin with the
      media-backend URL. */
  lemma BackendUrlAbsolute(b: MediaBackend, cfg: MediaConfig, p: string)
    requires WellFormed(cfg) && cfg.backend == Some(b)
    ensures MediaBackendUrl(b, cfg.mediaPath) <= p ==> IsAbsolute(p)
  {
    var u := MediaBackendUrl(b, cfg.mediaPath);
    if u <= p {
      AbsoluteAppend(b.origin, b.basePath + cfg.mediaPath);
      assert u == b.origin + (b.basePath + cfg.mediaPath);
      AbsoluteAppend(u, p[|u|..]);
      assert u + p[|u|..] == p;
    }
  }

  /** The location part holds no `?` when the path and the configuration
      hold none. */
  lemma LocateNoQuery(path: string, k: ImageKind, cfg: MediaConfig)
    requires '?' !in path && WellFormed(cfg)
    ensures '?' !in Locate(path, k, cfg)
  {
    var p := Prefixed(path, k, cfg.mediaPath);
    if p != path {
      var base := BaseDir(k).value;
      assert base == "/catalog/product" || base == "/catalog/category";
      assert '?' !in base;
      assert '?' !in cfg.mediaPath + base;
    }
    assert '?' !in p;
  }

  /** The rewritten URL of a recognised image whose input carries no query,
      or the very query the rewriter writes, is its location part followed
      by exactly one copy of the generated query. */
  lemma QueryNotDuplicated(input: string, opts: Options, cfg: MediaConfig, merge: QueryMerge)
    requires Kind(opts).Some? && WellFormed(cfg)
    requires FreshOrSameQuery(input, opts)
    ensures SplitQuery(MakeUrl(input, opts, cfg, merge))
            == (Locate(SplitQuery(input).0, Kind(opts).value, cfg), QueryOf(opts))
  {
    var path := SplitQuery(input).0;
    LocateNoQuery(path, Kind(opts).value, cfg);
    SplitWithQuery(Locate(path, Kind(opts).value, cfg), QueryOf(opts));
  }
}
