/** The image provider: its configuration builder, the request path it
    builds for the image service, and the provider call around an opaque
    fetch (HTTP GET, retries and JPEG decoding). */
module ImageApi {
  import opened Wrappers
  import Errors
  import Strings
  import Strconv

  const DefaultImageWidth: int := 200
  const DefaultImageHeight: int := 300
  const MaxImageWidth: int := 1920
  const MaxImageHeight: int := 1080
  const DefaultBaseUrl: string := "https://picsum.photos"

  const ImageFilterGrayscale: string := "grayscale"
  const ImageFilterBlur: string := "blur"

  /** What the provider is asked for. Width and height are bounded from above
      only. */
  datatype ImageConfig = ImageConfig(filters: seq<string>, width: int, height: int)

  datatype ImageConfigBuilder = ImageConfigBuilder(config: ImageConfig)

  /** The provider's fixed connection parameter. */
  datatype ImageAPI = ImageAPI(baseURL: string)

  datatype ImageAPIBuilder = ImageAPIBuilder(api: ImageAPI)

  // ---------------------------------------------------------------------
  // Provider builder

  function NewImageAPIBuilder(): (b: ImageAPIBuilder)
    ensures BuildAPI(b).baseURL == DefaultBaseUrl
  {
    ImageAPIBuilder(ImageAPI(DefaultBaseUrl))
  }

  function WithBaseURL(b: ImageAPIBuilder, baseURL: string): (r: ImageAPIBuilder)
    ensures BuildAPI(r) == ImageAPI(baseURL)
  {
    b.(api := b.api.(baseURL := baseURL))
  }

  /** The provider as built so far. */
  function BuildAPI(b: ImageAPIBuilder): ImageAPI
  {
    b.api
  }

  // ---------------------------------------------------------------------
  // Configuration builder

  function NewImageConfigBuilder(): (b: ImageConfigBuilder)
    ensures Build(b) == ImageConfig([], DefaultImageWidth, DefaultImageHeight)
    ensures WithinBounds(Build(b))
  {
    ImageConfigBuilder(ImageConfig([], DefaultImageWidth, DefaultImageHeight))
  }

  /** Width above the maximum is replaced by the maximum; any other value,
      zero and negatives included, is kept. Nothing else changes. */
  function WithWidth(b: ImageConfigBuilder, w: int): (r: ImageConfigBuilder)
    ensures Build(r).width <= MaxImageWidth
    ensures w <= MaxImageWidth ==> Build(r).width == w
    ensures w > MaxImageWidth ==> Build(r).width == MaxImageWidth
    ensures Build(r).height == Build(b).height && Build(r).filters == Build(b).filters
  {
    var w' := if w > MaxImageWidth then MaxImageWidth else w;
    b.(config := b.config.(width := w'))
  }

  /** Height above the maximum is replaced by the maximum; any other value is
      kept. Nothing else changes. */
  function WithHeight(b: ImageConfigBuilder, h: int): (r: ImageConfigBuilder)
    ensures Build(r).height <= MaxImageHeight
    ensures h <= MaxImageHeight ==> Build(r).height == h
    ensures h > MaxImageHeight ==> Build(r).height == MaxImageHeight
    ensures Build(r).width == Build(b).width && Build(r).filters == Build(b).filters
  {
    var h' := if h > MaxImageHeight then MaxImageHeight else h;
    b.(config := b.config.(height := h'))
  }

  /** New filters go after the ones already present, in order, duplicates
      kept. Width and height do not change. */
  function WithFilters(b: ImageConfigBuilder, filters: seq<string>): (r: ImageConfigBuilder)
    ensures |Build(r).filters| == |Build(b).filters| + |filters|
    ensures Build(r).filters[..|Build(b).filters|] == Build(b).filters
    ensures Build(r).filters[|Build(b).filters|..] == filters
    ensures Build(r).width == Build(b).width && Build(r).height == Build(b).height
  {
    b.(config := b.config.(filters := b.config.filters + filters))
  }

  /** The configuration as set so far. */
  function Build(b: ImageConfigBuilder): ImageConfig
  {
    b.config
  }

  /** Adding filters in two calls is the same as adding them in one. */
  lemma {:induction false} WithFiltersTwice(b: ImageConfigBuilder, xs: seq<string>, ys: seq<string>)
    ensures WithFilters(WithFilters(b, xs), ys) == WithFilters(b, xs + ys)
  {
    assert b.config.filters + xs + ys == b.config.filters + (xs + ys);
  }

  predicate WithinBounds(c: ImageConfig)
  {
    c.width <= MaxImageWidth && c.height <= MaxImageHeight
  }

  /** One chained setter call. */
  datatype Setter = SetWidth(w: int) | SetHeight(h: int) | AddFilters(fs: seq<string>)

  function Apply(b: ImageConfigBuilder, s: Setter): ImageConfigBuilder
  {
    match s
    case SetWidth(w) => WithWidth(b, w)
    case SetHeight(h) => WithHeight(b, h)
    case AddFilters(fs) => WithFilters(b, fs)
  }

  /** A chain of setter calls, applied left to right. */
  function ApplyAll(b: ImageConfigBuilder, ops: seq<Setter>): ImageConfigBuilder
    decreases |ops|
  {
    if |ops| == 0 then b else ApplyAll(Apply(b, ops[0]), ops[1..])
  }

  /** Every filter list of the chain, concatenated in call order. */
  function AddedFilters(ops: seq<Setter>): seq<string>
  {
    if |ops| == 0 then []
    else (if ops[0].AddFilters? then ops[0].fs else []) + AddedFilters(ops[1..])
  }

  /** After any chain of setters the filters are those present followed by
      all added ones, in call order. */
  lemma {:induction false} ApplyAllFilters(b: ImageConfigBuilder, ops: seq<Setter>)
    ensures Build(ApplyAll(b, ops)).filters == Build(b).filters + AddedFilters(ops)
    decreases |ops|
  {
    if |ops| > 0 {
      ApplyAllFilters(Apply(b, ops[0]), ops[1..]);
    }
  }

  /** The last width call of a chain wins (clamped); without one the width is
      where it started. */
  lemma {:induction false} ApplyAllWidth(b: ImageConfigBuilder, ops: seq<Setter>)
    ensures (forall i :: 0 <= i < |ops| ==> !ops[i].SetWidth?) ==> Build(ApplyAll(b, ops)).width == Build(b).width
    ensures forall i :: 0 <= i < |ops| && ops[i].SetWidth? && (forall j :: i < j < |ops| ==> !ops[j].SetWidth?)
              ==> Build(ApplyAll(b, ops)).width == Build(WithWidth(b, ops[i].w)).width
    decreases |ops|
  {
    if |ops| > 0 {
      var rest := ops[1..];
      ApplyAllWidth(Apply(b, ops[0]), rest);
      assert forall i :: 0 < i < |ops| ==> ops[i] == rest[i - 1];
    }
  }

  /** The last height call of a chain wins (clamped); without one the height
      is where it started. */
  lemma {:induction false} ApplyAllHeight(b: ImageConfigBuilder, ops: seq<Setter>)
    ensures (forall i :: 0 <= i < |ops| ==> !ops[i].SetHeight?) ==> Build(ApplyAll(b, ops)).height == Build(b).height
    ensures forall i :: 0 <= i < |ops| && ops[i].SetHeight? && (forall j :: i < j < |ops| ==> !ops[j].SetHeight?)
              ==> Build(ApplyAll(b, ops)).height == Build(WithHeight(b, ops[i].h)).height
    decreases |ops|
  {
    if |ops| > 0 {
      var rest := ops[1..];
      ApplyAllHeight(Apply(b, ops[0]), rest);
      assert forall i :: 0 < i < |ops| ==> ops[i] == rest[i - 1];
    }
  }

  /** A builder within bounds stays within bounds whatever is chained onto it. */
  lemma {:induction false} ApplyAllWithinBounds(b: ImageConfigBuilder, ops: seq<Setter>)
    requires WithinBounds(Build(b))
    ensures WithinBounds(Build(ApplyAll(b, ops)))
    decreases |ops|
  {
    if |ops| > 0 {
      ApplyAllWithinBounds(Apply(b, ops[0]), ops[1..]);
    }
  }

  // ---------------------------------------------------------------------
  // Request path

  predicate IsKnownFilter(f: string)
  {
    f == ImageFilterGrayscale || f == ImageFilterBlur
  }

  /** The text one filter contributes to the query: itself when recognised,
      nothing otherwise. */
  function RenderFilter(f: string): (r: string)
    ensures IsKnownFilter(f) ==> r == f
    ensures !IsKnownFilter(f) ==> r == ""
  {
    if f == ImageFilterGrayscale then ImageFilterGrayscale
    else if f == ImageFilterBlur then ImageFilterBlur
    else ""
  }

  function RenderAll(fs: seq<string>): (r: seq<string>)
    ensures |r| == |fs|
    ensures forall i :: 0 <= i < |r| ==> r[i] == RenderFilter(fs[i])
  {
    if |fs| == 0 then [] else RenderAll(fs[..|fs| - 1]) + [RenderFilter(fs[|fs| - 1])]
  }

  /** The filter part of the path as the builder loop writes it: before every
      filter but the first an `&`, then the filter's own text. */
  function FilterOptions(fs: seq<string>): string
  {
    if |fs| == 0 then ""
    else
      FilterOptions(fs[..|fs| - 1]) + (if |fs| - 1 != 0 then "&" else "") + RenderFilter(fs[|fs| - 1])
  }

  /** The loop writes the recognised filters' texts joined by `&`, one `&`
      per neighbouring pair whether or not the filters are recognised. */
  lemma {:induction false} FilterOptionsJoin(fs: seq<string>)
    ensures FilterOptions(fs) == Strings.Join(RenderAll(fs), '&')
  {
    if |fs| > 1 {
      var init := fs[..|fs| - 1];
      var last := RenderFilter(fs[|fs| - 1]);
      FilterOptionsJoin(init);
      assert FilterOptions(fs) == FilterOptions(init) + "&" + last;
      var ri := RenderAll(init);
      assert RenderAll(fs) == ri + [last];
      Strings.JoinSnoc(ri, last, '&');
    }
  }

  lemma {:induction false} RenderedHaveNoDelimiters(fs: seq<string>)
    ensures forall i :: 0 <= i < |RenderAll(fs)| ==> '&' !in RenderAll(fs)[i] && '?' !in RenderAll(fs)[i]
  {
  }

  /** For a non-empty filter list: exactly `|fs| - 1` separators, and
      splitting on `&` gives back each filter's text in order. */
  lemma {:induction false} FilterOptionsSplit(fs: seq<string>)
    requires |fs| >= 1
    ensures Strings.Count(FilterOptions(fs), '&') == |fs| - 1
    ensures Strings.Split(FilterOptions(fs), '&') == RenderAll(fs)
  {
    FilterOptionsJoin(fs);
    RenderedHaveNoDelimiters(fs);
    Strings.SplitJoin(RenderAll(fs), '&');
  }

  /** The filter part is empty exactly when there is no filter, or a single
      one that is not recognised. */
  lemma {:induction false} FilterOptionsEmpty(fs: seq<string>)
    ensures FilterOptions(fs) == "" <==> |fs| == 0 || (|fs| == 1 && !IsKnownFilter(fs[0]))
  {
    if |fs| >= 2 {
      FilterOptionsSplit(fs);
    } else if |fs| == 1 {
      FilterOptionsJoin(fs);
    }
  }

  lemma {:induction false} FilterOptionsHasNoQuestionMark(fs: seq<string>)
    ensures '?' !in FilterOptions(fs)
  {
    if |fs| >= 1 {
      FilterOptionsSplit(fs);
      Strings.JoinSplit(FilterOptions(fs), '&');
      RenderedHaveNoDelimiters(fs);
      JoinAvoids(RenderAll(fs), '&', '?');
    }
  }

  lemma {:induction false} JoinAvoids(xs: seq<string>, c: char, d: char)
    requires c != d
    requires forall i :: 0 <= i < |xs| ==> d !in xs[i]
    ensures d !in Strings.Join(xs, c)
  {
    if |xs| > 1 {
      JoinAvoids(xs[1..], c, d);
    }
  }

  /** `base/W/H.jpg`, the part of the path that does not depend on filters. */
  function SizePath(baseURL: string, c: ImageConfig): string
  {
    baseURL + "/" + Strconv.Itoa(c.width) + "/" + Strconv.Itoa(c.height) + ".jpg"
  }

  /** `buildPath`: the size path, then `?` and the filter part when that is
      not empty. */
  function BuildPath(api: ImageAPI, c: ImageConfig): string
  {
    var filterOptions := FilterOptions(c.filters);
    SizePath(api.baseURL, c) + (if filterOptions != "" then "?" + filterOptions else "")
  }

  /** The path starts with the size path; a `?` follows it exactly when the
      filter part is non-empty, and then the filter part is the rest. */
  lemma {:induction false} BuildPathShape(api: ImageAPI, c: ImageConfig)
    ensures var p := BuildPath(api, c); var head := SizePath(api.baseURL, c);
      && |head| <= |p| && p[..|head|] == head
      && ('?' in p[|head|..] <==> FilterOptions(c.filters) != "")
      && (FilterOptions(c.filters) != "" ==> p[|head|..] == "?" + FilterOptions(c.filters))
      && (FilterOptions(c.filters) == "" ==> p == head)
  {
    FilterOptionsHasNoQuestionMark(c.filters);
    var p := BuildPath(api, c);
    var head := SizePath(api.baseURL, c);
    assert p == head + (if FilterOptions(c.filters) != "" then "?" + FilterOptions(c.filters) else "");
  }

  /** How the image service reads a request path under `baseURL`:
      `W/H.jpg`, then an optional `?` query whose `&`-separated items are the
      filters. */
  function ReadPath(baseURL: string, p: string): Option<(int, int, seq<string>)>
  {
    if |p| < |baseURL| + 1 || p[..|baseURL|] != baseURL || p[|baseURL|] != '/' then None
    else ReadTail(p[|baseURL| + 1..])
  }

  /** The part of a request path after `baseURL/`. */
  function ReadTail(tail: string): Option<(int, int, seq<string>)>
  {
    var parts := Strings.Split(tail, '?');
    var segments := Strings.Split(parts[0], '/');
    if |parts| > 2 || |segments| != 2 || !Strings.EndsWith(segments[1], ".jpg") then None
    else
      var query := if |parts| == 2 then Strings.Split(parts[1], '&') else [];
      match (Strconv.Atoi(segments[0]), Strconv.Atoi(segments[1][..|segments[1]| - 4]))
      case (Some(w), Some(h)) => Some((w, h, query))
      case _ => None
  }

  lemma ReadPathPrefix(baseURL: string, tail: string)
    ensures ReadPath(baseURL, baseURL + "/" + tail) == ReadTail(tail)
  {
    var p := baseURL + "/" + tail;
    assert p[..|baseURL|] == baseURL && p[|baseURL|] == '/' && p[|baseURL| + 1..] == tail;
  }

  lemma {:induction false} ItoaAvoids(n: int)
    ensures '/' !in Strconv.Itoa(n) && '?' !in Strconv.Itoa(n) && '.' !in Strconv.Itoa(n)
  {
    var s := Strconv.Itoa(n);
    if n < 0 {
      var d := s[1..];
      assert Strconv.AllDigits(d);
      assert s == "-" + d;
    }
  }

  lemma {:induction false} SplitTail(size: string, fo: string)
    requires '?' !in size && '?' !in fo
    ensures Strings.Split(size + (if fo != "" then "?" + fo else ""), '?') == if fo != "" then [size, fo] else [size]
  {
    if fo != "" {
      assert size + ("?" + fo) == size + ['?'] + fo;
      Strings.SplitAtSeparator(size, fo, '?');
      Strings.SplitNoSeparator(fo, '?');
      assert [size] + [fo] == [size, fo];
    } else {
      assert size + "" == size;
      Strings.SplitNoSeparator(size, '?');
    }
  }

  lemma {:induction false} SplitSize(ws: string, hs: string)
    requires '/' !in ws && '/' !in hs && '.' !in hs
    ensures Strings.Split(ws + "/" + hs + ".jpg", '/') == [ws, hs + ".jpg"]
  {
    assert ws + "/" + hs + ".jpg" == ws + ['/'] + (hs + ".jpg");
    Strings.SplitAtSeparator(ws, hs + ".jpg", '/');
    Strings.SplitNoSeparator(hs + ".jpg", '/');
  }

  /** The service reads back the configured width and height (any 64-bit
      values) and, when there is a query, each filter's text in order. */
  lemma {:induction false} ReadBuildPath(api: ImageAPI, c: ImageConfig)
    requires Strconv.IsInt64(c.width) && Strconv.IsInt64(c.height)
    ensures ReadPath(api.baseURL, BuildPath(api, c)) ==
      Some((c.width, c.height, if FilterOptions(c.filters) == "" then [] else RenderAll(c.filters)))
  {
    var fo := FilterOptions(c.filters);
    var ws, hs := Strconv.Itoa(c.width), Strconv.Itoa(c.height);
    var tail := ws + "/" + hs + ".jpg" + (if fo != "" then "?" + fo else "");
    assert BuildPath(api, c) == api.baseURL + "/" + tail;
    ReadPathPrefix(api.baseURL, tail);
    ItoaAvoids(c.width);
    ItoaAvoids(c.height);
    FilterOptionsHasNoQuestionMark(c.filters);
    Strconv.AtoiItoa(c.width);
    Strconv.AtoiItoa(c.height);
    if fo != "" {
      FilterOptionsEmpty(c.filters);
      FilterOptionsSplit(c.filters);
    }
    ReadSizeTail(ws, hs, fo, c.width, c.height);
  }

  /** Reading `W/H.jpg` with an optional `?query` back. */
  lemma {:induction false} ReadSizeTail(ws: string, hs: string, fo: string, w: int, h: int)
    requires '/' !in ws && '/' !in hs && '.' !in hs && '?' !in ws && '?' !in hs && '?' !in fo
    requires Strconv.Atoi(ws) == Some(w) && Strconv.Atoi(hs) == Some(h)
    ensures ReadTail(ws + "/" + hs + ".jpg" + (if fo != "" then "?" + fo else ""))
            == Some((w, h, if fo != "" then Strings.Split(fo, '&') else []))
  {
    var size := ws + "/" + hs + ".jpg";
    assert '?' !in size by {
      assert size == ws + ['/'] + hs + ['.', 'j', 'p', 'g'];
    }
    SplitTail(size, fo);
    SplitSize(ws, hs);
    var last := hs + ".jpg";
    assert last[..|last| - 4] == hs;
    assert Strings.EndsWith(last, ".jpg");
  }

  // ---------------------------------------------------------------------
  // Provider call

  const ImageErrorPrefix: string := "failed to get image from random image API after retries: "

  /** `GetRandomImage`: fetch the path built from the configuration. The
      fetch (HTTP GET, status check, JPEG decode, all under the retry
      policy) is an opaque function of the path. A decoded image is passed
      through; a failure becomes a flat error with the provider's prefix. */
  function GetRandomImage<I>(api: ImageAPI, b: ImageConfigBuilder, fetch: string -> Result<I, Errors.Error>)
    : (r: Result<I, Errors.Error>)
    ensures var outcome := fetch(BuildPath(api, Build(b)));
      && (outcome.Ok? <==> r.Ok?)
      && (outcome.Ok? ==> r.value == outcome.value)
      && (outcome.Err? ==> Errors.Message(r.error) == ImageErrorPrefix + Errors.Message(outcome.error)
                           && Errors.Unwrap(r.error) == None)
  {
    match fetch(BuildPath(api, Build(b)))
    case Ok(img) => Ok(img)
    case Err(e) => Err(Errors.Errorf(ImageErrorPrefix, e))
  }

  // ---------------------------------------------------------------------
  // The repository's examples

  lemma Itoa200() ensures Strconv.Itoa(200) == "200"
  {
    assert Strconv.NatDigits(20) == "20" by { assert Strconv.NatDigits(2) == "2"; }
  }

  lemma Itoa300() ensures Strconv.Itoa(300) == "300"
  {
    assert Strconv.NatDigits(30) == "30" by { assert Strconv.NatDigits(3) == "3"; }
  }

  lemma Itoa400() ensures Strconv.Itoa(400) == "400"
  {
    assert Strconv.NatDigits(40) == "40" by { assert Strconv.NatDigits(4) == "4"; }
  }

  lemma Itoa600() ensures Strconv.Itoa(600) == "600"
  {
    assert Strconv.NatDigits(60) == "60" by { assert Strconv.NatDigits(6) == "6"; }
  }

  /** A path without a filter query is the size path alone. */
  lemma PathWithoutFilters(api: ImageAPI, c: ImageConfig, ws: string, hs: string)
    requires FilterOptions(c.filters) == ""
    requires Strconv.Itoa(c.width) == ws && Strconv.Itoa(c.height) == hs
    ensures BuildPath(api, c) == api.baseURL + "/" + ws + "/" + hs + ".jpg"
  {
  }

  /** A path with a filter query is the size path, `?` and the query. */
  lemma PathWithFilters(api: ImageAPI, c: ImageConfig, ws: string, hs: string, fo: string)
    requires FilterOptions(c.filters) == fo && fo != ""
    requires Strconv.Itoa(c.width) == ws && Strconv.Itoa(c.height) == hs
    ensures BuildPath(api, c) == api.baseURL + "/" + ws + "/" + hs + ".jpg" + "?" + fo
  {
  }

  lemma TwoFilters()
    ensures FilterOptions(["blur", "grayscale"]) == "blur&grayscale"
  {
    var fs := ["blur", "grayscale"];
    assert fs[..1] == ["blur"];
    assert fs[..1][..0] == [];
    assert FilterOptions(["blur"]) == FilterOptions([]) + "" + RenderFilter("blur");
    assert FilterOptions(["blur"]) == "blur";
    assert FilterOptions(fs) == "blur" + "&" + "grayscale";
  }

  lemma DefaultPath()
    ensures BuildPath(BuildAPI(NewImageAPIBuilder()), Build(NewImageConfigBuilder()))
            == DefaultBaseUrl + "/" + "200" + "/" + "300" + ".jpg"
  {
    Itoa200();
    Itoa300();
    PathWithoutFilters(BuildAPI(NewImageAPIBuilder()), Build(NewImageConfigBuilder()), "200", "300");
  }

  lemma SizeAndFiltersPath()
    ensures var b := WithFilters(WithHeight(WithWidth(NewImageConfigBuilder(), 400), 600), ["blur", "grayscale"]);
      BuildPath(BuildAPI(NewImageAPIBuilder()), Build(b)) == DefaultBaseUrl + "/" + "400" + "/" + "600" + ".jpg" + "?" + "blur&grayscale"
  {
    var b := WithFilters(WithHeight(WithWidth(NewImageConfigBuilder(), 400), 600), ["blur", "grayscale"]);
    assert Build(b) == ImageConfig(["blur", "grayscale"], 400, 600);
    Itoa400();
    Itoa600();
    TwoFilters();
    PathWithFilters(BuildAPI(NewImageAPIBuilder()), Build(b), "400", "600", "blur&grayscale");
  }

  /** An unrecognised filter still costs its separator; an empty one alone
      gives no query at all. */
  lemma SeparatorOfUnknownFilter()
    ensures FilterOptions(["x", "blur"]) == "&blur"
    ensures FilterOptions([""]) == ""
  {
    assert ["x", "blur"][..1] == ["x"];
  }
}
