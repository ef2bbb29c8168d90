/** What the rewriter promises, stated over all inputs: the media prefix
    rule, what absolute URLs keep, how the two optimising-origin modes relate
    to a configuration without a media backend and to each other, and that
    rewriting twice changes nothing more. */
module ImageUrlProperties {
  import opened Optionals
  import opened Strings
  import opened Query
  import opened ImageOptions
  import opened ImageUrl

  /** The same configuration with no media backend, so no origin is
      stripped or added. */
  function WithoutBackend(cfg: MediaConfig): MediaConfig
  {
    cfg.(backend := None)
  }

  /** A prefix without `?` of `p + "?" + rest` is a prefix of `p` alone,
      when `p` holds no `?` either. */
  lemma PrefixBeforeMark(u: string, p: string, rest: string)
    requires '?' !in u && '?' !in p
    ensures u <= p + "?" + rest <==> u <= p
  {
    var s := p + "?" + rest;
    if u <= s {
      assert s[|p|] == '?';
      assert |u| <= |p|;
      assert u == p[..|u|];
    }
    if u <= p {
      PrefixOfAppend(u, p, "?" + rest);
      assert p + ("?" + rest) == s;
    }
  }

  /** Under a well-formed configuration the media-backend URL holds no `?`. */
  lemma BackendUrlNoQuery(b: MediaBackend, cfg: MediaConfig)
    requires WellFormed(cfg) && cfg.backend == Some(b)
    ensures '?' !in MediaBackendUrl(b, cfg.mediaPath)
  {
  }

  /** A path under the media path is a site path, not an absolute URL. */
  lemma UnderMediaNotAbsolute(cfg: MediaConfig, p: string)
    requires WellFormed(cfg) && cfg.mediaPath <= p
    ensures !IsAbsolute(p)
  {
    assert p[0] == cfg.mediaPath[0];
    RootedNotAbsolute(p);
  }

  /** The media prefix rule: a relative site path of a product or category
      image, not yet in its base directory, is moved under the media path
      and the base directory, and gains the optimisation query. */
  lemma RelativeImagePrefixed(path: string, opts: Options, cfg: MediaConfig, merge: QueryMerge)
    requires WellFormed(cfg) && (cfg.backend.None? || cfg.mode == Onboard)
    requires Kind(opts).Some? && BaseDir(Kind(opts).value).Some?
    requires |path| >= 1 && path[0] == '/' && '?' !in path
    requires !InPlace(path, Kind(opts).value, cfg.mediaPath)
    ensures MakeUrl(path, opts, cfg, merge)
            == cfg.mediaPath + BaseDir(Kind(opts).value).value + path + "?" + QueryOf(opts)
  {
    var k := Kind(opts).value;
    SplitWithQuery(path, "");
    RootedNotAbsolute(path);
    var p := Prefixed(path, k, cfg.mediaPath);
    assert p == cfg.mediaPath + BaseDir(k).value + path;
    UnderMediaNotAbsolute(cfg, p);
    if cfg.backend.Some? {
      BackendUrlAbsolute(cfg.backend.value, cfg, p);
    }
  }

  /** A relative path that already sits in its base directory, or an image
      kind without one, gets no media prefix: the output is the path itself
      with the optimisation query, so it starts with the input. */
  lemma InPlacePathKept(path: string, existing: string, opts: Options, cfg: MediaConfig, merge: QueryMerge)
    requires WellFormed(cfg) && (cfg.backend.None? || cfg.mode == Onboard)
    requires Kind(opts).Some? && InPlace(path, Kind(opts).value, cfg.mediaPath)
    requires !IsAbsolute(path) && '?' !in path
    requires existing == "" || existing == QueryOf(opts)
    ensures MakeUrl(WithQuery(path, existing), opts, cfg, merge) == path + "?" + QueryOf(opts)
    ensures path <= MakeUrl(WithQuery(path, existing), opts, cfg, merge)
  {
    SplitWithQuery(path, existing);
    if cfg.backend.Some? {
      BackendUrlAbsolute(cfg.backend.value, cfg, path);
    }
  }

  /** An absolute URL of a recognised image keeps its origin and path and
      only gains the optimisation query, unless onboard mode strips it. */
  lemma AbsoluteKeepsLocation(url: string, existing: string, opts: Options, cfg: MediaConfig, merge: QueryMerge)
    requires Kind(opts).Some? && IsAbsolute(url) && '?' !in url
    requires existing == "" || existing == QueryOf(opts)
    requires !(cfg.mode == Onboard && cfg.backend.Some?
               && MediaBackendUrl(cfg.backend.value, cfg.mediaPath) <= url)
    ensures MakeUrl(WithQuery(url, existing), opts, cfg, merge) == url + "?" + QueryOf(opts)
  {
    SplitWithQuery(url, existing);
  }

  /** The onboard-mode origin step on a location `p` followed by the query
      `m`: the backend origin and base path come off exactly when the whole
      begins with the media-backend URL. */
  lemma OnboardStep(p: string, m: string, cfg: MediaConfig)
    requires WellFormed(cfg) && cfg.mode == Onboard && cfg.backend.Some?
    requires '?' !in p
    ensures var b := cfg.backend.value;
            Relocated(p, cfg) + "?" + m
            == if MediaBackendUrl(b, cfg.mediaPath) <= p + "?" + m then (p + "?" + m)[|b.origin + b.basePath|..]
               else p + "?" + m
  {
    var b := cfg.backend.value;
    var u := MediaBackendUrl(b, cfg.mediaPath);
    BackendUrlNoQuery(b, cfg);
    PrefixBeforeMark(u, p, m);
    if u <= p {
      var n := |b.origin + b.basePath|;
      assert n <= |u|;
      assert (p + "?" + m)[n..] == p[n..] + "?" + m;
    }
  }

  /** Onboard mode is the configuration without a backend followed by
      stripping the backend origin (and base path) from a result that
      begins with the media-backend URL. */
  lemma OnboardMode(input: string, opts: Options, cfg: MediaConfig, merge: QueryMerge)
    requires Kind(opts).Some? && WellFormed(cfg)
    requires cfg.mode == Onboard && cfg.backend.Some?
    ensures var b := cfg.backend.value;
            var r0 := MakeUrl(input, opts, WithoutBackend(cfg), merge);
            MakeUrl(input, opts, cfg, merge)
            == if MediaBackendUrl(b, cfg.mediaPath) <= r0 then r0[|b.origin + b.basePath|..] else r0
  {
    var k := Kind(opts).value;
    var path := SplitQuery(input).0;
    var p := Prefixed(path, k, cfg.mediaPath);
    LocateNoQuery(path, k, WithoutBackend(cfg));
    OnboardStep(p, MergeQuery(SplitQuery(input).1, QueryOf(opts), merge), cfg);
  }

  /** Onboard mode turns a URL under the media-backend URL, with or without
      the query the rewriter writes, into the path from the media path on,
      with that query once. */
  lemma OnboardStripsBackendUrl(rest: string, existing: string, opts: Options, cfg: MediaConfig, merge: QueryMerge)
    requires Kind(opts).Some? && WellFormed(cfg)
    requires cfg.mode == Onboard && cfg.backend.Some?
    requires '?' !in rest
    requires existing == "" || existing == QueryOf(opts)
    ensures MakeUrl(WithQuery(MediaBackendUrl(cfg.backend.value, cfg.mediaPath) + rest, existing), opts, cfg, merge)
            == cfg.mediaPath + rest + "?" + QueryOf(opts)
  {
    var b := cfg.backend.value;
    var u := MediaBackendUrl(b, cfg.mediaPath);
    BackendUrlNoQuery(b, cfg);
    SplitWithQuery(u + rest, existing);
    BackendUrlAbsolute(b, cfg, u + rest);
    PrefixOfAppend(u, u, rest);
    assert (u + rest)[|b.origin + b.basePath|..] == cfg.mediaPath + rest;
  }

  /** The backend-mode origin step on a location `p` followed by the query
      `m`: the origin goes in front exactly when the whole is under the
      media path. */
  lemma BackendStep(p: string, m: string, cfg: MediaConfig)
    requires WellFormed(cfg) && cfg.mode == Backend && cfg.backend.Some?
    requires '?' !in p
    ensures Relocated(p, cfg) + "?" + m
            == if cfg.mediaPath <= p + "?" + m then cfg.backend.value.origin + (p + "?" + m) else p + "?" + m
  {
    PrefixBeforeMark(cfg.mediaPath, p, m);
    if cfg.mediaPath <= p {
      UnderMediaNotAbsolute(cfg, p);
    }
  }

  /** Backend mode is the configuration without a backend followed by
      putting the backend origin in front of a result under the media
      path. */
  lemma BackendMode(input: string, opts: Options, cfg: MediaConfig, merge: QueryMerge)
    requires Kind(opts).Some? && WellFormed(cfg)
    requires cfg.mode == Backend && cfg.backend.Some?
    ensures var r0 := MakeUrl(input, opts, WithoutBackend(cfg), merge);
            MakeUrl(input, opts, cfg, merge)
            == if cfg.mediaPath <= r0 then cfg.backend.value.origin + r0 else r0
  {
    var k := Kind(opts).value;
    var path := SplitQuery(input).0;
    var p := Prefixed(path, k, cfg.mediaPath);
    LocateNoQuery(path, k, WithoutBackend(cfg));
    BackendStep(p, MergeQuery(SplitQuery(input).1, QueryOf(opts), merge), cfg);
  }

  /** Backend mode puts the backend origin in front of a relative path under
      the media path that needs no media prefix, and writes the query once. */
  lemma BackendPrependsOrigin(path: string, existing: string, opts: Options, cfg: MediaConfig, merge: QueryMerge)
    requires Kind(opts).Some? && WellFormed(cfg)
    requires cfg.mode == Backend && cfg.backend.Some?
    requires cfg.mediaPath <= path && '?' !in path
    requires InPlace(path, Kind(opts).value, cfg.mediaPath)
    requires existing == "" || existing == QueryOf(opts)
    ensures MakeUrl(WithQuery(path, existing), opts, cfg, merge)
            == cfg.backend.value.origin + path + "?" + QueryOf(opts)
  {
    SplitWithQuery(path, existing);
    UnderMediaNotAbsolute(cfg, path);
  }

  /** Prefixing twice prefixes once: a prefixed path already sits in its
      base directory. */
  lemma PrefixedIdempotent(path: string, k: ImageKind, mediaPath: string)
    ensures Prefixed(Prefixed(path, k, mediaPath), k, mediaPath) == Prefixed(path, k, mediaPath)
  {
    var p := Prefixed(path, k, mediaPath);
    if p != path {
      assert mediaPath + BaseDir(k).value <= p;
    }
  }

  /** Prefixing never yields an absolute URL from a relative path. */
  lemma PrefixedAbsolute(path: string, k: ImageKind, cfg: MediaConfig)
    requires WellFormed(cfg)
    ensures IsAbsolute(Prefixed(path, k, cfg.mediaPath)) ==> Prefixed(path, k, cfg.mediaPath) == path
  {
    var p := Prefixed(path, k, cfg.mediaPath);
    if p != path {
      PrefixTrans(cfg.mediaPath, cfg.mediaPath + BaseDir(k).value, p);
      UnderMediaNotAbsolute(cfg, p);
    }
  }

  lemma PrefixTrans(a: string, b: string, c: string)
    requires a <= b && b <= c
    ensures a <= c
  {
  }

  /** A recognised image whose input carries no query, or the one the
      rewriter writes, comes out as its location part and that query. */
  lemma Unfold(input: string, opts: Options, cfg: MediaConfig, merge: QueryMerge)
    requires Kind(opts).Some? && FreshOrSameQuery(input, opts)
    ensures MakeUrl(input, opts, cfg, merge)
            == Locate(SplitQuery(input).0, Kind(opts).value, cfg) + "?" + QueryOf(opts)
  {
  }

  /** A rewritten URL splits back into its location part and the generated
      query, so rewriting it again sees that query and not a new one. */
  lemma RewrittenSplits(l: string, opts: Options)
    requires '?' !in l
    ensures SplitQuery(l + "?" + QueryOf(opts)) == (l, QueryOf(opts))
    ensures FreshOrSameQuery(l + "?" + QueryOf(opts), opts)
  {
    SplitWithQuery(l, QueryOf(opts));
  }

  /** Onboard mode takes back the origin that backend mode put in front of
      a path under the media path, when the backend has no base path. */
  lemma OnboardUndoesOrigin(p: string, k: ImageKind, cfg: MediaConfig)
    requires WellFormed(cfg) && cfg.backend.Some? && cfg.backend.value.basePath == ""
    requires cfg.mediaPath <= p
    ensures Locate(cfg.backend.value.origin + p, k, cfg.(mode := Onboard)) == p
  {
    var b := cfg.backend.value;
    var l := b.origin + p;
    AbsoluteAppend(b.origin, p);
    assert Prefixed(l, k, cfg.mediaPath) == l;
    assert MediaBackendUrl(b, cfg.mediaPath) == b.origin + cfg.mediaPath;
    PrefixOfAppend(cfg.mediaPath, p, "");
    assert MediaBackendUrl(b, cfg.mediaPath) <= l;
    assert l[|b.origin + b.basePath|..] == p;
  }

  /** The location part of the origin round trip. */
  lemma LocateRoundTrip(path: string, k: ImageKind, cfg: MediaConfig)
    requires WellFormed(cfg) && cfg.backend.Some? && cfg.backend.value.basePath == ""
    ensures Locate(Locate(path, k, cfg.(mode := Backend)), k, cfg.(mode := Onboard))
            == Locate(path, k, cfg.(mode := Onboard))
  {
    var co := cfg.(mode := Onboard);
    var b := cfg.backend.value;
    var p := Prefixed(path, k, cfg.mediaPath);
    BackendUrlAbsolute(b, co, p);
    if !IsAbsolute(p) && cfg.mediaPath <= p {
      assert Locate(path, k, cfg.(mode := Backend)) == b.origin + p;
      OnboardUndoesOrigin(p, k, cfg);
    } else {
      assert Locate(path, k, cfg.(mode := Backend)) == p;
      PrefixedIdempotent(path, k, cfg.mediaPath);
    }
  }

  /** Origin round trip: with a media backend that has no base path, a URL
      written in backend mode and then rewritten in onboard mode ends where
      onboard mode alone would have put it. */
  lemma OriginRoundTrip(input: string, opts: Options, cfg: MediaConfig, merge: QueryMerge)
    requires Kind(opts).Some? && WellFormed(cfg)
    requires cfg.backend.Some? && cfg.backend.value.basePath == ""
    requires FreshOrSameQuery(input, opts)
    ensures var onboard := cfg.(mode := Onboard);
            MakeUrl(MakeUrl(input, opts, cfg.(mode := Backend), merge), opts, onboard, merge)
            == MakeUrl(input, opts, onboard, merge)
  {
    var cb := cfg.(mode := Backend);
    var co := cfg.(mode := Onboard);
    var k := Kind(opts).value;
    var path := SplitQuery(input).0;
    var lb := Locate(path, k, cb);
    Unfold(input, opts, cb, merge);
    Unfold(input, opts, co, merge);
    LocateNoQuery(path, k, cb);
    RewrittenSplits(lb, opts);
    Unfold(lb + "?" + QueryOf(opts), opts, co, merge);
    LocateRoundTrip(path, k, cfg);
  }

  /** Onboard stripping of `path` leaves a path that needs no media prefix,
      or does not happen. */
  predicate StripLeavesInPlace(path: string, k: ImageKind, cfg: MediaConfig)
  {
    cfg.backend.Some? && cfg.mode == Onboard
    && MediaBackendUrl(cfg.backend.value, cfg.mediaPath) <= path
    ==> InPlace(path[|cfg.backend.value.origin + cfg.backend.value.basePath|..], k, cfg.mediaPath)
  }

  /** Locating a located path changes nothing more. */
  lemma LocateIdempotent(path: string, k: ImageKind, cfg: MediaConfig)
    requires WellFormed(cfg) && StripLeavesInPlace(path, k, cfg)
    ensures Locate(Locate(path, k, cfg), k, cfg) == Locate(path, k, cfg)
  {
    var p := Prefixed(path, k, cfg.mediaPath);
    var l := Locate(path, k, cfg);
    PrefixedIdempotent(path, k, cfg.mediaPath);
    match cfg.backend
    case None =>
    case Some(b) =>
      BackendUrlAbsolute(b, cfg, p);
      BackendUrlAbsolute(b, cfg, l);
      if cfg.mode == Onboard && MediaBackendUrl(b, cfg.mediaPath) <= p {
        var n := |b.origin + b.basePath|;
        assert l == p[n..];
        PrefixedAbsolute(path, k, cfg);
        assert MediaBackendUrl(b, cfg.mediaPath) == (b.origin + b.basePath) + cfg.mediaPath;
        assert cfg.mediaPath <= l;
        UnderMediaNotAbsolute(cfg, l);
      } else if cfg.mode == Backend && !IsAbsolute(p) && cfg.mediaPath <= p {
        AbsoluteAppend(b.origin, p);
      }
  }

  /** Rewriting a rewritten URL changes nothing more, as long as the input
      carried no query or the one the rewriter writes, and an onboard strip
      does not uncover a path that still needs its media prefix. */
  lemma Idempotent(input: string, opts: Options, cfg: MediaConfig, merge: QueryMerge)
    requires WellFormed(cfg)
    requires Kind(opts).Some? ==> FreshOrSameQuery(input, opts)
    requires Kind(opts).Some? ==> StripLeavesInPlace(SplitQuery(input).0, Kind(opts).value, cfg)
    ensures MakeUrl(MakeUrl(input, opts, cfg, merge), opts, cfg, merge) == MakeUrl(input, opts, cfg, merge)
  {
    if Kind(opts).Some? {
      var k := Kind(opts).value;
      var path := SplitQuery(input).0;
      var l := Locate(path, k, cfg);
      Unfold(input, opts, cfg, merge);
      LocateNoQuery(path, k, cfg);
      RewrittenSplits(l, opts);
      Unfold(l + "?" + QueryOf(opts), opts, cfg, merge);
      LocateIdempotent(path, k, cfg);
    }
  }
}
