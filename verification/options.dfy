/** The options record the rewriter is called with, the image kinds it
    recognises, and the ordered list of optimisation parameters it writes
    into the query string. */
module ImageOptions {
  import opened Optionals
  import opened Strings
  import opened Query

  /** The image kinds the rewriter acts on. The wysiwyg kind keeps the
      spelling the callers use, `image-wyswiyg`. */
  datatype ImageKind = Product | Category | Wysiwyg

  function KindName(k: ImageKind): string
  {
    match k
    case Product => "image-product"
    case Category => "image-category"
    case Wysiwyg => "image-wyswiyg"
  }

  /** Recognises a `type` option; any other name is unrecognised. */
  function KindOf(name: string): (k: Option<ImageKind>)
    ensures k.Some? ==> KindName(k.value) == name
    ensures forall kind :: KindName(kind) == name ==> k == Some(kind)
  {
    if name == "image-product" then Some(Product)
    else if name == "image-category" then Some(Category)
    else if name == "image-wyswiyg" then Some(Wysiwyg)
    else None
  }

  /** The directory, under the media path, that holds images of a kind;
      wysiwyg images have none. */
  function BaseDir(k: ImageKind): Option<string>
  {
    match k
    case Product => Some("/catalog/product")
    case Category => Some("/catalog/category")
    case Wysiwyg => None
  }

  /** The second argument of the rewriter. Every field may be absent. */
  datatype Options = Options(
    imageType: Option<string>,
    width: Option<nat>,
    height: Option<nat>,
    quality: Option<nat>,
    crop: Option<bool>,
    fit: Option<string>)

  /** The rewriter called with its input alone. */
  const NoOptions := Options(None, None, None, None, None, None)

  /** The recognised kind of an options record, if it names one. */
  function Kind(o: Options): Option<ImageKind>
  {
    if o.imageType.Some? then KindOf(o.imageType.value) else None
  }

  function BoolString(b: bool): string
  {
    if b then "true" else "false"
  }

  /** Query keys in the order the rewriter writes them. */
  const CanonicalKeys: seq<string> := ["auto", "format", "width", "height", "quality", "crop", "fit"]

  /** Position of a key in `CanonicalKeys`; 7 for any other key. */
  function Rank(key: string): (n: nat)
    ensures n <= 7
    ensures n < 7 <==> key in CanonicalKeys
    ensures n < 7 ==> CanonicalKeys[n] == key
  {
    if key == "auto" then 0
    else if key == "format" then 1
    else if key == "width" then 2
    else if key == "height" then 3
    else if key == "quality" then 4
    else if key == "crop" then 5
    else if key == "fit" then 6
    else 7
  }

  /** The value written for `key`: the two fixed defaults, and each size or
      fit option rendered as text when present. */
  function Field(o: Options, key: string): Option<string>
  {
    if key == "auto" then Some("webp")
    else if key == "format" then Some("pjpg")
    else if key == "width" then (if o.width.Some? then Some(NatToString(o.width.value)) else None)
    else if key == "height" then (if o.height.Some? then Some(NatToString(o.height.value)) else None)
    else if key == "quality" then (if o.quality.Some? then Some(NatToString(o.quality.value)) else None)
    else if key == "crop" then (if o.crop.Some? then Some(BoolString(o.crop.value)) else None)
    else if key == "fit" then o.fit
    else None
  }

  function Optional(o: Options, key: string): seq<Param>
  {
    match Field(o, key)
    case Some(v) => [Param(key, v)]
    case None => []
  }

  /** The parameters appended for an image: `auto=webp`, `format=pjpg`, then
      width, height, quality, crop and fit when present. */
  function ParamsOf(o: Options): seq<Param>
  {
    [Param("auto", "webp"), Param("format", "pjpg")]
    + Optional(o, "width") + Optional(o, "height") + Optional(o, "quality")
    + Optional(o, "crop") + Optional(o, "fit")
  }

  /** Keys appear in strictly increasing canonical position. */
  predicate Ordered(ps: seq<Param>)
  {
    forall i, j :: 0 <= i < j < |ps| ==> Rank(ps[i].key) < Rank(ps[j].key)
  }

  /** True when an options record asks for no resizing at all. */
  predicate NoSizing(o: Options)
  {
    o.width.None? && o.height.None? && o.quality.None? && o.crop.None? && o.fit.None?
  }

  /** `ps` holds exactly the fields of `o` whose keys come before position
      `n` of `CanonicalKeys`, in order. */
  ghost predicate CarriesUpTo(ps: seq<Param>, o: Options, n: nat)
  {
    && Ordered(ps)
    && (forall i :: 0 <= i < |ps| ==> Rank(ps[i].key) < n)
    && (forall i :: 0 <= i < |ps| ==> Field(o, ps[i].key) == Some(ps[i].value))
    && (forall key :: Lookup(ps, key) == if Rank(key) < n then Field(o, key) else None)
  }

  /** Appending the optional field at position `n` extends `CarriesUpTo`
      by one position. */
  lemma CarriesStep(ps: seq<Param>, o: Options, n: nat)
    requires 2 <= n < 7
    requires CarriesUpTo(ps, o, n)
    ensures CarriesUpTo(ps + Optional(o, CanonicalKeys[n]), o, n + 1)
  {
    var key := CanonicalKeys[n];
    var ext := Optional(o, key);
    var qs := ps + ext;
    assert Rank(key) == n;
    forall i, j | 0 <= i < j < |qs|
      ensures Rank(qs[i].key) < Rank(qs[j].key)
    {
      if j >= |ps| {
        assert qs[j] == ext[j - |ps|];
      }
    }
    forall k
      ensures Lookup(qs, k) == if Rank(k) < n + 1 then Field(o, k) else None
    {
      LookupAppend(ps, ext, k);
      if Rank(k) == n {
        assert k == key;
        assert Lookup(ps, k) == None;
      }
    }
  }

  /** The two defaults alone carry the fields before position 2. */
  lemma DefaultsCarry(o: Options)
    ensures CarriesUpTo([Param("auto", "webp"), Param("format", "pjpg")], o, 2)
  {
    var p0 := [Param("auto", "webp"), Param("format", "pjpg")];
    forall key
      ensures Lookup(p0, key) == if Rank(key) < 2 then Field(o, key) else None
    {
      assert p0[1..] == [Param("format", "pjpg")];
      assert p0[1..][1..] == [];
    }
  }

  /** The whole list carries every canonical field. */
  lemma ParamsOfCarries(o: Options)
    ensures CarriesUpTo(ParamsOf(o), o, 7)
  {
    var p0 := [Param("auto", "webp"), Param("format", "pjpg")];
    DefaultsCarry(o);
    var p1 := p0 + Optional(o, CanonicalKeys[2]);
    CarriesStep(p0, o, 2);
    var p2 := p1 + Optional(o, CanonicalKeys[3]);
    CarriesStep(p1, o, 3);
    var p3 := p2 + Optional(o, CanonicalKeys[4]);
    CarriesStep(p2, o, 4);
    var p4 := p3 + Optional(o, CanonicalKeys[5]);
    CarriesStep(p3, o, 5);
    CarriesStep(p4, o, 6);
  }

  /** The optional parameters come after the two defaults, and there are
      none of them exactly when no sizing is asked. */
  lemma ParamsOfPrefix(o: Options)
    ensures |ParamsOf(o)| >= 2
    ensures ParamsOf(o)[..2] == [Param("auto", "webp"), Param("format", "pjpg")]
    ensures |ParamsOf(o)| == 2 <==> NoSizing(o)
  {
    var d := [Param("auto", "webp"), Param("format", "pjpg")];
    var rest := Optional(o, "width") + Optional(o, "height") + Optional(o, "quality")
                + Optional(o, "crop") + Optional(o, "fit");
    assert ParamsOf(o) == d + rest;
    assert (d + rest)[..2] == d;
    assert |rest| == 0 <==> NoSizing(o);
  }

  /** Keys outside the canonical list carry no field. */
  lemma FieldOutside(o: Options, key: string)
    requires Rank(key) == 7
    ensures Field(o, key) == None
  {
  }

  /** The parameter list starts with the two defaults, keeps the canonical
      order, and carries exactly the fields the options hold, each with its
      rendered value; it has only the defaults when no sizing is asked. */
  lemma ParamsOfShape(o: Options)
    ensures |ParamsOf(o)| >= 2
    ensures ParamsOf(o)[..2] == [Param("auto", "webp"), Param("format", "pjpg")]
    ensures Ordered(ParamsOf(o))
    ensures forall key :: Lookup(ParamsOf(o), key) == Field(o, key)
    ensures |ParamsOf(o)| == 2 <==> NoSizing(o)
  {
    ParamsOfPrefix(o);
    ParamsOfCarries(o);
    var ps := ParamsOf(o);
    forall key
      ensures Lookup(ps, key) == Field(o, key)
    {
      assert Lookup(ps, key) == if Rank(key) < 7 then Field(o, key) else None;
      if Rank(key) == 7 {
        FieldOutside(o, key);
      }
    }
  }

  /** The query written for every recognised image when no sizing is
      asked. */
  const DefaultQuery: string := "auto=webp&format=pjpg"

  lemma DefaultsRender()
    ensures Render([Param("auto", "webp"), Param("format", "pjpg")]) == DefaultQuery
  {
    var d := [Param("auto", "webp"), Param("format", "pjpg")];
    RenderCons(d);
    assert d[1..] == [Param("format", "pjpg")];
    assert RenderParam(d[0]) == "auto=webp";
    assert RenderParam(d[1]) == "format=pjpg";
  }

  /** The query string appended for an image: it always begins with the
      defaults, and is exactly the defaults when no sizing is asked. */
  function QueryOf(o: Options): (q: string)
    ensures DefaultQuery <= q
    ensures NoSizing(o) <==> q == DefaultQuery
  {
    var ps := ParamsOf(o);
    ParamsOfShape(o);
    DefaultsRender();
    var d := ps[..2];
    if |ps| == 2 then
      assert ps == d;
      Render(ps)
    else
      RenderAppend(d, ps[2..]);
      assert d + ps[2..] == ps;
      Render(ps)
  }

  /** Each canonical field the options hold survives a round trip, provided
      the `fit` value holds no `&`. */
  lemma FieldPlain(o: Options, key: string)
    requires Rank(key) < 7 && Field(o, key).Some?
    requires o.fit.Some? ==> '&' !in o.fit.value
    ensures Plain(Param(key, Field(o, key).value))
  {
    var v := Field(o, key).value;
    if key == "width" || key == "height" || key == "quality" {
      assert IsDigits(v);
    }
  }

  /** Every parameter the rewriter writes survives a round trip, provided
      the `fit` value holds no `&`. */
  lemma ParamsOfPlain(o: Options)
    requires o.fit.Some? ==> '&' !in o.fit.value
    ensures forall i :: 0 <= i < |ParamsOf(o)| ==> Plain(ParamsOf(o)[i])
  {
    var ps := ParamsOf(o);
    ParamsOfCarries(o);
    forall i | 0 <= i < |ps|
      ensures Plain(ps[i])
    {
      FieldPlain(o, ps[i].key);
    }
  }
  /** Reading back the query string of an options record gives its
      parameter list, provided the `fit` value holds no `&`. */
  lemma QueryOfRoundTrip(o: Options)
    requires o.fit.Some? ==> '&' !in o.fit.value
    ensures Parse(QueryOf(o)) == ParamsOf(o)
  {
    ParamsOfShape(o);
    ParamsOfPlain(o);
    ParseRenderRoundTrip(ParamsOf(o));
  }
}
