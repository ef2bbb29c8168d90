/** The rewriter's unit-test cases, one lemma per case, each derived from
    the general properties. The constants are the test suite's own. */
module ImageUrlCases {
  import opened Optionals
  import opened Strings
  import opened Query
  import opened ImageOptions
  import opened ImageUrl
  import opened ImageUrlProperties

  const MediaPath: string := "/media"
  const ProductBase: string := "/catalog/product"
  const CategoryBase: string := "/catalog/category"
  const DefaultParams: string := "auto=webp&format=pjpg"
  const RelativePath: string := "/some/path/to/img.jpg"
  const AbsoluteUrls: seq<string> := ["data://example.com/foo.png", "http://example.com/bar.png", "https://example.com/baz.png"]

  /** The query the resizing cases expect. */
  const WidthParams: string := "auto=webp&format=pjpg&width=100"

  /** The media backends of the origin cases: the host of the media-backend
      URL, and the base path of the second onboard case. */
  const Origin8000: string := "https://cdn.origin:8000"
  const Origin9000: string := "https://cdn.origin:9000"
  const VeniaBase: string := "/venia"

  /** Onboard mode with the media backend at `Origin8000 + basePath + "/media"`. */
  function OnboardConfig(basePath: string): MediaConfig
  {
    MediaConfig(MediaPath, Some(MediaBackend(Origin8000, basePath)), Onboard)
  }

  /** Backend mode with the media backend at `Origin9000 + "/media"`. */
  const BackendConfig: MediaConfig := MediaConfig(MediaPath, Some(MediaBackend(Origin9000, "")), Backend)

  /** A string is not a prefix of one it differs from at position `i`. */
  lemma NotPrefixAt(a: string, b: string, i: nat)
    requires i < |a| && i < |b| && a[i] != b[i]
    ensures !(a <= b)
  {
  }

  /** The test suite's relative path is not in any base directory. */
  lemma RelativePathNotInPlace(k: ImageKind)
    ensures !InPlace(RelativePath, k, MediaPath) || k == Wysiwyg
  {
    if k != Wysiwyg {
      NotPrefixAt(BaseDir(k).value, RelativePath, 1);
      NotPrefixAt(MediaPath + BaseDir(k).value, RelativePath, 1);
    }
  }

  lemma AbsoluteUrlPlain()
    ensures IsAbsolute(AbsoluteUrls[2]) && '?' !in AbsoluteUrls[2]
  {
  }

  lemma ProductKind(o: Options)
    requires o.imageType == Some("image-product")
    ensures Kind(o) == Some(Product)
  {
  }

  /** Options naming only an image type. */
  function TypeOnly(name: string): Options
  {
    NoOptions.(imageType := Some(name))
  }

  /** Options naming an image type and a width. */
  function TypeAndWidth(name: string, width: nat): Options
  {
    TypeOnly(name).(width := Some(width))
  }

  /** The numbers of the test cases, as the query writes them. */
  lemma TestNumbers()
    ensures NatToString(100) == "100" && NatToString(85) == "85"
  {
    assert NatToString(10) == "10";
    assert NatToString(8) == "8";
  }

  /** The parameters written for a width of 100 and no other sizing. */
  lemma WidthParamsList(name: string)
    ensures ParamsOf(TypeAndWidth(name, 100))
            == [Param("auto", "webp"), Param("format", "pjpg")] + [Param("width", "100")]
  {
    TestNumbers();
  }

  /** The query written for a width of 100 and no other sizing. */
  lemma WidthQuery(name: string)
    ensures QueryOf(TypeAndWidth(name, 100)) == "auto=webp&format=pjpg&width=100"
  {
    var d := [Param("auto", "webp"), Param("format", "pjpg")];
    WidthParamsList(name);
    DefaultsRender();
    RenderSnoc(d, Param("width", "100"));
  }

  lemma NoOptionsAbsoluteUnchanged(merge: QueryMerge)
    ensures forall i :: 0 <= i < |AbsoluteUrls| ==>
              MakeUrl(AbsoluteUrls[i], NoOptions, DefaultConfig, merge) == AbsoluteUrls[i]
  {
  }

  lemma NoOptionsRelativeUnchanged(merge: QueryMerge)
    ensures MakeUrl(RelativePath, NoOptions, DefaultConfig, merge) == RelativePath
  {
  }

  lemma UnrecognisedTypeUnchanged(merge: QueryMerge)
    ensures MakeUrl(RelativePath, TypeOnly("invalid"), DefaultConfig, merge) == RelativePath
  {
    assert Kind(TypeOnly("invalid")) == None by {
      assert |"invalid"| != |KindName(Product)|;
      assert |"invalid"| != |KindName(Category)|;
      assert |"invalid"| != |KindName(Wysiwyg)|;
    }
  }

  lemma ProductImagePrefixed(merge: QueryMerge)
    ensures MakeUrl(RelativePath, TypeOnly("image-product"), DefaultConfig, merge)
            == MediaPath + ProductBase + RelativePath + "?" + DefaultParams
  {
    RelativePathNotInPlace(Product);
    RelativeImagePrefixed(RelativePath, TypeOnly("image-product"), DefaultConfig, merge);
  }

  lemma CategoryImagePrefixed(merge: QueryMerge)
    ensures MakeUrl(RelativePath, TypeOnly("image-category"), DefaultConfig, merge)
            == MediaPath + CategoryBase + RelativePath + "?" + DefaultParams
  {
    RelativePathNotInPlace(Category);
    RelativeImagePrefixed(RelativePath, TypeOnly("image-category"), DefaultConfig, merge);
  }

  lemma CachedPathNotPrefixed(merge: QueryMerge)
    ensures var cachedPath := ProductBase + "/foo.jpg";
            cachedPath <= MakeUrl(cachedPath, TypeOnly("image-product"), DefaultConfig, merge)
  {
    var cachedPath := ProductBase + "/foo.jpg";
    RootedNotAbsolute(cachedPath);
    InPlacePathKept(cachedPath, "", TypeOnly("image-product"), DefaultConfig, merge);
  }

  lemma AbsoluteUrlGainsWidth(merge: QueryMerge)
    ensures MakeUrl(AbsoluteUrls[2], TypeAndWidth("image-product", 100), DefaultConfig, merge)
            == "https://example.com/baz.png" + "?" + "auto=webp&format=pjpg&width=100"
  {
    var o := TypeAndWidth("image-product", 100);
    ProductKind(o);
    WidthQuery("image-product");
    AbsoluteUrlPlain();
    AbsoluteKeepsLocation(AbsoluteUrls[2], "", o, DefaultConfig, merge);
  }

  lemma RelativeResizeIncludesMediaPath(merge: QueryMerge)
    ensures MakeUrl(RelativePath, TypeAndWidth("image-product", 100), DefaultConfig, merge)
            == MediaPath + ProductBase + RelativePath + "?" + "auto=webp&format=pjpg&width=100"
  {
    var o := TypeAndWidth("image-product", 100);
    ProductKind(o);
    WidthQuery("image-product");
    RelativePathNotInPlace(Product);
    RelativeImagePrefixed(RelativePath, o, DefaultConfig, merge);
  }

  /** The parameters written for every sizing option at once. */
  lemma AllParamsList(o: Options)
    requires o.width == Some(100) && o.height == Some(100) && o.quality == Some(85)
    requires o.crop == Some(false) && o.fit == Some("cover")
    ensures ParamsOf(o) == [Param("auto", "webp"), Param("format", "pjpg"), Param("width", "100"),
                            Param("height", "100"), Param("quality", "85"), Param("crop", "false"),
                            Param("fit", "cover")]
  {
    TestNumbers();
  }

  /** The query string of the list up to the quality, written one pair at
      a time. */
  lemma SizeParamsRender()
    ensures Render([Param("auto", "webp"), Param("format", "pjpg"), Param("width", "100"),
                    Param("height", "100"), Param("quality", "85")])
            == "auto=webp&format=pjpg&width=100&height=100&quality=85"
  {
    var p2 := [Param("auto", "webp"), Param("format", "pjpg")];
    var p3 := p2 + [Param("width", "100")];
    var p4 := p3 + [Param("height", "100")];
    DefaultsRender();
    RenderSnoc(p2, Param("width", "100"));
    assert Render(p3) == "auto=webp&format=pjpg&width=100";
    RenderSnoc(p3, Param("height", "100"));
    assert Render(p4) == "auto=webp&format=pjpg&width=100&height=100";
    RenderSnoc(p4, Param("quality", "85"));
    assert p4 + [Param("quality", "85")]
           == [Param("auto", "webp"), Param("format", "pjpg"), Param("width", "100"),
               Param("height", "100"), Param("quality", "85")];
  }

  /** The query string of the whole list: the crop and fit pairs follow. */
  lemma AllParamsRender()
    ensures Render([Param("auto", "webp"), Param("format", "pjpg"), Param("width", "100"),
                    Param("height", "100"), Param("quality", "85"), Param("crop", "false"),
                    Param("fit", "cover")])
            == "auto=webp&format=pjpg&width=100&height=100&quality=85&crop=false&fit=cover"
  {
    var p5 := [Param("auto", "webp"), Param("format", "pjpg"), Param("width", "100"),
               Param("height", "100"), Param("quality", "85")];
    var p6 := p5 + [Param("crop", "false")];
    SizeParamsRender();
    RenderSnoc(p5, Param("crop", "false"));
    assert Render(p6) == "auto=webp&format=pjpg&width=100&height=100&quality=85&crop=false";
    RenderSnoc(p6, Param("fit", "cover"));
    assert p6 + [Param("fit", "cover")]
           == [Param("auto", "webp"), Param("format", "pjpg"), Param("width", "100"),
               Param("height", "100"), Param("quality", "85"), Param("crop", "false"),
               Param("fit", "cover")];
  }

  /** The query written for every sizing option at once. */
  lemma AllParamsQuery(o: Options)
    requires o.width == Some(100) && o.height == Some(100) && o.quality == Some(85)
    requires o.crop == Some(false) && o.fit == Some("cover")
    ensures QueryOf(o) == "auto=webp&format=pjpg&width=100&height=100&quality=85&crop=false&fit=cover"
  {
    AllParamsList(o);
    AllParamsRender();
  }

  /** Regrouping the pieces of the origin cases' URLs. */
  lemma RegroupBackendUrl(o: string, b: string, m: string, pb: string, rp: string, q: string)
    requires q != ""
    ensures WithQuery(MediaBackendUrl(MediaBackend(o, b), m) + (pb + rp), q) == o + b + m + pb + rp + "?" + q
    ensures WithQuery(MediaBackendUrl(MediaBackend(o, ""), m) + (pb + rp), q) == o + m + pb + rp + "?" + q
    ensures m + (pb + rp) + "?" + q == m + pb + rp + "?" + q
    ensures o + (m + pb + rp) + "?" + q == o + m + pb + rp + "?" + q
  {
  }

  lemma WysiwygKind(o: Options)
    requires o.imageType == Some("image-wyswiyg")
    ensures Kind(o) == Some(Wysiwyg)
  {
  }

  lemma WysiwygAllParams(merge: QueryMerge)
    ensures var o := Options(Some("image-wyswiyg"), Some(100), Some(100), Some(85), Some(false), Some("cover"));
            MakeUrl(AbsoluteUrls[2], o, DefaultConfig, merge)
            == AbsoluteUrls[2] + "?" + "auto=webp&format=pjpg&width=100&height=100&quality=85&crop=false&fit=cover"
  {
    var o := Options(Some("image-wyswiyg"), Some(100), Some(100), Some(85), Some(false), Some("cover"));
    WysiwygKind(o);
    AllParamsQuery(o);
    AbsoluteUrlPlain();
    AbsoluteKeepsLocation(AbsoluteUrls[2], "", o, DefaultConfig, merge);
  }

  lemma OriginConfigsWellFormed(basePath: string)
    requires basePath == "" || basePath == VeniaBase
    ensures WellFormed(OnboardConfig(basePath))
    ensures WellFormed(BackendConfig)
  {
    assert "https:" <= Origin8000 && "https:" <= Origin9000;
    assert '?' !in Origin8000 && '?' !in Origin9000 && '?' !in VeniaBase;
  }

  lemma OnboardRemovesOrigin(merge: QueryMerge)
    ensures MakeUrl(Origin8000 + MediaPath + ProductBase + RelativePath + "?" + WidthParams,
                    TypeAndWidth("image-product", 100), OnboardConfig(""), merge)
            == MediaPath + ProductBase + RelativePath + "?" + WidthParams
  {
    var o := TypeAndWidth("image-product", 100);
    ProductKind(o);
    WidthQuery("image-product");
    OriginConfigsWellFormed("");
    OnboardStripsBackendUrl(ProductBase + RelativePath, WidthParams, o, OnboardConfig(""), merge);
    RegroupBackendUrl(Origin8000, "", MediaPath, ProductBase, RelativePath, WidthParams);
  }

  lemma OnboardRemovesOriginWithBasePath(merge: QueryMerge)
    ensures MakeUrl(Origin8000 + VeniaBase + MediaPath + ProductBase + RelativePath + "?" + WidthParams,
                    TypeAndWidth("image-product", 100), OnboardConfig(VeniaBase), merge)
            == MediaPath + ProductBase + RelativePath + "?" + WidthParams
  {
    var o := TypeAndWidth("image-product", 100);
    ProductKind(o);
    WidthQuery("image-product");
    OriginConfigsWellFormed(VeniaBase);
    OnboardStripsBackendUrl(ProductBase + RelativePath, WidthParams, o, OnboardConfig(VeniaBase), merge);
    RegroupBackendUrl(Origin8000, VeniaBase, MediaPath, ProductBase, RelativePath, WidthParams);
  }

  /** The backend case's input path sits under the media path and in the
      product base directory. */
  lemma MediaProductPath()
    ensures var path := MediaPath + ProductBase + RelativePath;
            MediaPath <= path && '?' !in path && InPlace(path, Product, MediaPath)
  {
    var path := MediaPath + ProductBase + RelativePath;
    PrefixOfAppend(MediaPath + ProductBase, MediaPath + ProductBase, RelativePath);
    PrefixOfAppend(MediaPath, MediaPath, ProductBase + RelativePath);
    assert MediaPath + (ProductBase + RelativePath) == path;
  }

  lemma BackendPrependsOriginCase(merge: QueryMerge)
    ensures MakeUrl(MediaPath + ProductBase + RelativePath + "?" + WidthParams,
                    TypeAndWidth("image-product", 100), BackendConfig, merge)
            == Origin9000 + MediaPath + ProductBase + RelativePath + "?" + WidthParams
  {
    var o := TypeAndWidth("image-product", 100);
    var path := MediaPath + ProductBase + RelativePath;
    ProductKind(o);
    WidthQuery("image-product");
    OriginConfigsWellFormed("");
    MediaProductPath();
    BackendPrependsOrigin(path, WidthParams, o, BackendConfig, merge);
    RegroupBackendUrl(Origin9000, "", MediaPath, ProductBase, RelativePath, WidthParams);
  }
}
