# makeUrl: the storefront's image URL rewriter, in Dafny

This project models `makeUrl(input, options)` from the Venia storefront UI
(`packages/venia-ui/lib/util/makeUrl`), the helper that turns an image
reference into the optimised URL to request for it. It takes a URL or
site path plus an options record (`type`, `width`, `height`, `quality`,
`crop`, `fit`) and returns the URL to request:

- Inputs whose `type` is missing or unrecognised come back unchanged.
- A relative product or category path gets the media path (`/media`) and
  the kind's base directory (`/catalog/product`, `/catalog/category`) in
  front. This is skipped when the path already sits in that directory.
  Absolute URLs are never prefixed.
- The optimisation query `auto=webp&format=pjpg` is appended. After it come
  `width`, `height`, `quality`, `crop` and `fit` when present, in that
  order, with booleans written `true`/`false`.
- The optimising-origin mode decides what happens to the origin:
  - In `onboard` mode, a URL under the media-backend URL becomes relative
    again, starting at the media path.
  - In `backend` mode, a relative path under the media path gets the
    backend origin in front.
  - In both modes, a query the rewriter would write anyway is not written
    twice.

The implementation file of `makeUrl` is not part of this model. Its behaviour
is taken from its unit-test suite, `makeUrl.spec.js`. Where the suite leaves
a behaviour open, the model makes a choice of its own, and each such choice
is listed under "## Left out". An input that already carries a different
query is the one case the model leaves fully open: the rewriter takes a
`merge` function as a parameter for it, and every property holds for any
`merge`.

The page-level configuration becomes an explicit `MediaConfig` argument:

- `mediaPath`: the media path, `/media` in the tests.
- `backend`: the media backend's origin and its base path, for example
  `https://cdn.origin:8000` and `/venia`.
- `mode`: the optimising-origin mode.

The storefront reads these values from the `data-media-backend` and
`data-image-optimizing-origin` attributes and from `MAGENTO_BACKEND_URL`.
The media-backend URL is `origin + basePath + mediaPath`.

Files:

- `optional.dfy`, module `Optionals`: the absent-or-present value used by
  the optional fields and by key lookup.
- `strings.dfy`, module `Strings`: first-occurrence search, decimal
  rendering of numbers with its reading-back partner, and splitting on a
  separator with its joining partner.
- `query.dfy`, module `Query`: `key=value&…` query strings, written and
  read back, and key lookup.
- `options.dfy`, module `ImageOptions`: the options record, the recognised
  image kinds and their base directories, and the ordered parameter list
  with its query string.
- `make_url.dfy`, module `ImageUrl`: the configuration and `MakeUrl`,
  built from the prefixing step, the origin-rewriting step and the
  query step.
- `make_url_properties.dfy`, module `ImageUrlProperties`: the all-inputs
  properties.
- `make_url_cases.dfy`, module `ImageUrlCases`: one lemma per test case,
  each derived from the all-inputs properties.

Three rules of the model decide the order of its steps. Each is the
model's own choice, fitted to the tests:

- An input without a recognised `type` is returned as it is, before any
  other step, under every configuration. The tests (`makeUrl.spec.js`
  lines 15-28) check this under the default configuration only.
- A path already in its kind's base directory keeps its start: nothing is
  put in front of it. The test at lines 42-48 requires the output to start
  with the input path.
- Only inputs that were relative to begin with get the media prefix. A URL
  that onboard mode makes relative is not prefixed afterwards, which gives
  the outputs of the tests at lines 84-124.

## Model

| member | source | states |
|---|---|---|
| ImageUrl.MakeUrl | packages/venia-ui/lib/util/__tests__/makeUrl.spec.js:15-28 | without a recognised `type` (no options, or an unrecognised name) the output is the input; with one, the output always carries a `?` query |
| ImageUrl.QueryNotDuplicated | packages/venia-ui/lib/util/__tests__/makeUrl.spec.js:84-144 | the input may carry no query or exactly the generated one; either way the output splits into the rewritten location and ONE copy of the generated query |
| ImageOptions.KindOf | packages/venia-ui/lib/util/__tests__/makeUrl.spec.js:25-74 | exactly `image-product`, `image-category` and `image-wyswiyg` are recognised, and a recognised name is the name of its kind |
| ImageOptions.ParamsOfShape | packages/venia-ui/lib/util/__tests__/makeUrl.spec.js:50-82 | the parameters start with `auto=webp`, `format=pjpg` and keep the order auto, format, width, height, quality, crop, fit; looking up any key gives exactly the option's rendered value, and nothing for absent options; only the two defaults appear iff no sizing is asked |
| ImageOptions.QueryOf | packages/venia-ui/lib/util/__tests__/makeUrl.spec.js:30-57 | the query always begins with `auto=webp&format=pjpg`, and is exactly that iff no sizing option is given |
| ImageOptions.QueryOfRoundTrip | packages/venia-ui/lib/util/__tests__/makeUrl.spec.js:59-74 | reading the written query back gives the ordered parameter list (when `fit` holds no `&`) |
| Query.ParseRenderRoundTrip | packages/venia-ui/lib/util/__tests__/makeUrl.spec.js:59-74 | a `key=value&…` query string reads back to the pairs it was written from, in order |
| Strings.NatToStringRoundTrip | packages/venia-ui/lib/util/__tests__/makeUrl.spec.js:65-72 | a number written into the query (`width=100`, `quality=85`) reads back to the same number |
| Strings.NatToString | packages/venia-ui/lib/util/__tests__/makeUrl.spec.js:65-72 | numbers are written as decimal digits with no leading zero |
| ImageUrlProperties.RelativeImagePrefixed | packages/venia-ui/lib/util/__tests__/makeUrl.spec.js:30-40 | for a product or category image, a rooted path not yet in its base directory becomes media path + base directory + path + `?` + generated query, when no backend origin is added |
| ImageUrlProperties.InPlacePathKept | packages/venia-ui/lib/util/__tests__/makeUrl.spec.js:42-48 | a relative path already in its base directory gets no media prefix: the output is the path with the generated query, so it starts with the input |
| ImageUrlProperties.PrefixedIdempotent | packages/venia-ui/lib/util/__tests__/makeUrl.spec.js:42-48 | prefixing a prefixed path changes nothing: the media path is never added twice |
| ImageUrlProperties.AbsoluteKeepsLocation | packages/venia-ui/lib/util/__tests__/makeUrl.spec.js:50-74 | an absolute URL of any recognised kind keeps its origin and path and only gains the generated query, unless onboard mode strips it |
| ImageUrlProperties.OnboardMode | packages/venia-ui/lib/util/__tests__/makeUrl.spec.js:84-124 | onboard mode gives the backend-free result, minus the backend origin and base path when that result begins with the media-backend URL |
| ImageUrlProperties.OnboardStep | packages/venia-ui/lib/util/__tests__/makeUrl.spec.js:84-124 | for any location without `?` followed by `?` and any query, onboard mode removes the backend origin and base path exactly when the whole begins with the media-backend URL, and otherwise leaves it as it is |
| ImageUrlProperties.OnboardStripsBackendUrl | packages/venia-ui/lib/util/__tests__/makeUrl.spec.js:84-124 | in onboard mode, media-backend URL + rest, with or without the generated query, becomes media path + rest + `?` + that query once, base path or not |
| ImageUrlProperties.BackendMode | packages/venia-ui/lib/util/__tests__/makeUrl.spec.js:126-144 | backend mode gives the backend-free result with the backend origin in front exactly when that result is under the media path |
| ImageUrlProperties.BackendStep | packages/venia-ui/lib/util/__tests__/makeUrl.spec.js:126-144 | for any location without `?` followed by `?` and any query, backend mode puts the backend origin in front exactly when the whole starts with the media path, and otherwise leaves it as it is |
| ImageUrlProperties.BackendPrependsOrigin | packages/venia-ui/lib/util/__tests__/makeUrl.spec.js:126-144 | in backend mode, a relative path under the media path that needs no prefix becomes origin + path + `?` + the generated query once |
| ImageUrlProperties.OriginRoundTrip | packages/venia-ui/lib/util/__tests__/makeUrl.spec.js:84-144 | a URL written in backend mode and rewritten in onboard mode ends where onboard mode alone puts it |
| ImageUrlProperties.Idempotent | packages/venia-ui/lib/util/__tests__/makeUrl.spec.js:84-144 | rewriting a rewritten URL gives the same URL: neither the media prefix, nor the origin, nor the query is added again |
| ImageUrlCases.NoOptionsAbsoluteUnchanged | packages/venia-ui/lib/util/__tests__/makeUrl.spec.js:15-19 | each `data://`, `http://`, `https://` test URL comes back unchanged without options |
| ImageUrlCases.NoOptionsRelativeUnchanged | packages/venia-ui/lib/util/__tests__/makeUrl.spec.js:21-23 | the relative test path comes back unchanged without options |
| ImageUrlCases.UnrecognisedTypeUnchanged | packages/venia-ui/lib/util/__tests__/makeUrl.spec.js:25-28 | type `invalid` leaves the relative path unchanged |
| ImageUrlCases.ProductImagePrefixed | packages/venia-ui/lib/util/__tests__/makeUrl.spec.js:30-34 | `/some/path/to/img.jpg` as a product image becomes `/media/catalog/product/some/path/to/img.jpg?auto=webp&format=pjpg` |
| ImageUrlCases.CategoryImagePrefixed | packages/venia-ui/lib/util/__tests__/makeUrl.spec.js:36-40 | the same path as a category image becomes `/media/catalog/category/...?auto=webp&format=pjpg` |
| ImageUrlCases.CachedPathNotPrefixed | packages/venia-ui/lib/util/__tests__/makeUrl.spec.js:42-48 | the output for `/catalog/product/foo.jpg` starts with `/catalog/product/foo.jpg` |
| ImageUrlCases.WidthQuery | packages/venia-ui/lib/util/__tests__/makeUrl.spec.js:50-57 | a width of 100 writes the query `auto=webp&format=pjpg&width=100` |
| ImageUrlCases.AbsoluteUrlGainsWidth | packages/venia-ui/lib/util/__tests__/makeUrl.spec.js:50-57 | `https://example.com/baz.png` with width 100 becomes `https://example.com/baz.png?auto=webp&format=pjpg&width=100` |
| ImageUrlCases.AllParamsQuery | packages/venia-ui/lib/util/__tests__/makeUrl.spec.js:59-74 | all sizing options write `auto=webp&format=pjpg&width=100&height=100&quality=85&crop=false&fit=cover` |
| ImageUrlCases.WysiwygAllParams | packages/venia-ui/lib/util/__tests__/makeUrl.spec.js:59-74 | a wysiwyg image with every option gets the test URL followed by `?` and that query |
| ImageUrlCases.RelativeResizeIncludesMediaPath | packages/venia-ui/lib/util/__tests__/makeUrl.spec.js:76-82 | the relative path as a product image with width 100 gets the media path, base directory and `?auto=webp&format=pjpg&width=100` |
| ImageUrlCases.OnboardRemovesOrigin | packages/venia-ui/lib/util/__tests__/makeUrl.spec.js:84-103 | with the media backend at `https://cdn.origin:8000/media` in onboard mode, the absolute backend URL with its query becomes the relative media path with the query once |
| ImageUrlCases.OnboardRemovesOriginWithBasePath | packages/venia-ui/lib/util/__tests__/makeUrl.spec.js:105-124 | the same with the media backend at `https://cdn.origin:8000/venia/media` |
| ImageUrlCases.BackendPrependsOriginCase | packages/venia-ui/lib/util/__tests__/makeUrl.spec.js:126-144 | with the media backend at `https://cdn.origin:9000/media` in backend mode, the relative media path with its query gains the origin `https://cdn.origin:9000` |

## Left out

- `packages/venia-ui/lib/components/Routes/routes.js` is not modelled. It is a React route table. Its matching, first-match and `exact` semantics belong to react-router, and its lazy loading and suspense fallback are UI concerns.
- Reading the configuration from the page is not modelled. This covers the `data-media-backend` and `data-image-optimizing-origin` attributes, the `MAGENTO_BACKEND_URL` environment variable, and the module reset the tests use to re-read them. The configuration is a `MediaConfig` argument instead.
- An input that already carries a query that is neither empty nor the generated one is handed to the `merge` parameter. The tests fix no policy for that case, so the model invents none.
- Query values are written as they are, with no percent-encoding. This matters for a `fit` value holding `&`, `=` or non-ASCII characters, and the tests use none.
- Absolute URLs are recognised by the lower-case `data:`, `http:` and `https:` prefixes, the three forms the tests use. Other schemes and upper-case schemes are not modelled.
- The ranges of `width`, `height` (positive) and `quality` (0 to 100) are not enforced. Any natural number is written as it is.
- General URL resolution is not modelled. This covers dot segments, the page's own origin and host normalisation. One `/` is added between the media directory and the path when the path does not start with one. Nothing collapses slashes that are already there, so a path starting with `//`, or a media path ending in `/`, gives a doubled slash.
- ImageUrlProperties.OriginRoundTrip: stated only for a media backend with an empty base path, because backend mode puts the origin alone in front of the path.
- ImageUrlProperties.Idempotent: stated only when onboard stripping uncovers a path already in its base directory, as in every test case. A stripped path outside it would be prefixed on the second pass.
- Backend mode puts only the backend origin in front of a path under the media path. A base path of the media backend is not added, just as a rooted path resolved against a URL keeps only that URL's origin. The tests use backend mode with an empty base path only.
- A path that starts with the media path followed by its kind's base directory counts as already in place, like one that starts with the base directory. The tests exercise the first form only in backend mode, where it must not be prefixed.
- A relative path that does not start with `/` is joined to the media directory with one `/` in between. The tests use rooted paths only.
- The backend URL of the build and the media-backend attribute of the page are folded into one `MediaBackend`, which assumes that they agree. The origin tests set them separately, and the backend-mode test sets only the attribute, to a different host.
- An onboard strip that uncovers a path outside its kind's base directory leaves that path as it is. A second rewrite then prefixes it, which is why `ImageUrlProperties.Idempotent` excludes that case.
- A relative path of a wysiwyg image is never prefixed, because the model gives that kind no base directory. The tests call a wysiwyg image only on an absolute URL.
- The "already in place" test is a plain string prefix with no directory boundary. A path such as `/catalog/productfoo.jpg` counts as already in the product directory and is not prefixed. The tests use only paths that continue with `/` after the base directory.
- An input is cut into location and query at its first `?`. The tests use inputs with at most one `?`.
- A `crop` option is written `true` or `false`. The tests use `false` only.
