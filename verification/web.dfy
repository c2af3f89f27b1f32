/** The web front end's decisions: reading the options from the query
    string, turning them into the two configuration builders, and mapping
    the outcome of parsing, fetching and displaying to an HTTP status. */
module Web {
  import opened Wrappers
  import Errors
  import Strings
  import Strconv
  import Url
  import QuoteApi
  import ImageApi
  import Facade

  const DefaultWebImageWidth: int := 600
  const DefaultWebImageHeight: int := 400
  const DefaultTextCategory: int := 0

  const StatusOK: int := 200
  const StatusBadRequest: int := 400
  const StatusInternalServerError: int := 500

  /** The texts of the three failure responses. */
  const InvalidRequestText: string := "Invalid request parameters"
  const FetchFailedText: string := "Failed to fetch data"
  const DisplayFailedText: string := "Failed to display data"

  /** `app.Options`: what one request asks for. */
  datatype Options = Options(quoteCategory: int, imageWidth: int, imageHeight: int, filters: seq<string>)

  /** A numeric parameter that is present but is not a decimal integer: its
      name and the text it held. */
  datatype ParseError = InvalidParameter(name: string, text: string)

  // ---------------------------------------------------------------------
  // Parsing the query

  /** A parameter that is given (non-empty) and does not parse. */
  predicate Rejected(text: string)
  {
    |text| > 0 && Strconv.Atoi(text).None?
  }

  /** The value a numeric parameter contributes: its parse when it is given,
      the default when it is absent or empty. */
  function ValueOr(text: string, default: int): int
    requires !Rejected(text)
  {
    if |text| > 0 then Strconv.Atoi(text).value else default
  }

  /** `ParseRequest`: start from key 0, width 600 and height 400; a given
      `key`, then `width`, then `height` replaces its default or fails the
      request; the filters are the `filters` parameter split on commas. */
  function ParseRequest(query: Url.Values): (r: Result<Options, ParseError>)
    ensures var key, width, height := Url.Get(query, "key"), Url.Get(query, "width"), Url.Get(query, "height");
      && (r.Ok? <==> !Rejected(key) && !Rejected(width) && !Rejected(height))
      && (r.Ok? ==> r.value == Options(ValueOr(key, DefaultTextCategory),
                                       ValueOr(width, DefaultWebImageWidth),
                                       ValueOr(height, DefaultWebImageHeight),
                                       Strings.Split(Url.Get(query, "filters"), ',')))
      && (Rejected(key) ==> r == Err(InvalidParameter("key", key)))
      && (!Rejected(key) && Rejected(width) ==> r == Err(InvalidParameter("width", width)))
      && (!Rejected(key) && !Rejected(width) && Rejected(height) ==> r == Err(InvalidParameter("height", height)))
  {
    var key := Url.Get(query, "key");
    var keyValue := if |key| > 0 then Strconv.Atoi(key) else Some(DefaultTextCategory);
    if keyValue.None? then Err(InvalidParameter("key", key))
    else
      var width := Url.Get(query, "width");
      var widthValue := if |width| > 0 then Strconv.Atoi(width) else Some(DefaultWebImageWidth);
      if widthValue.None? then Err(InvalidParameter("width", width))
      else
        var height := Url.Get(query, "height");
        var heightValue := if |height| > 0 then Strconv.Atoi(height) else Some(DefaultWebImageHeight);
        if heightValue.None? then Err(InvalidParameter("height", height))
        else
          var filters := Strings.Split(Url.Get(query, "filters"), ',');
          Ok(Options(keyValue.value, widthValue.value, heightValue.value, filters))
  }

  /** The query string a client sends for the given options. */
  function QueryOf(key: int, width: int, height: int, filters: seq<string>): Url.Values
  {
    var v := Url.Set([], "key", Strconv.Itoa(key));
    var v := Url.Set(v, "width", Strconv.Itoa(width));
    var v := Url.Set(v, "height", Strconv.Itoa(height));
    Url.Set(v, "filters", Strings.Join(filters, ','))
  }

  /** Options written into the query in decimal, with the filters joined
      by commas, are read back unchanged. */
  lemma ParseQueryOf(key: int, width: int, height: int, filters: seq<string>)
    requires Strconv.IsInt64(key) && Strconv.IsInt64(width) && Strconv.IsInt64(height)
    requires |filters| >= 1
    requires forall i :: 0 <= i < |filters| ==> ',' !in filters[i]
    ensures ParseRequest(QueryOf(key, width, height, filters)) == Ok(Options(key, width, height, filters))
  {
    QueryOfReads(key, width, height, filters);
    ParseDecimalValues(QueryOf(key, width, height, filters), key, width, height, filters);
  }

  /** Each parameter of `QueryOf` reads back as written. */
  lemma QueryOfReads(key: int, width: int, height: int, filters: seq<string>)
    ensures var q := QueryOf(key, width, height, filters);
      && Url.Get(q, "key") == Strconv.Itoa(key) && Url.Get(q, "width") == Strconv.Itoa(width)
      && Url.Get(q, "height") == Strconv.Itoa(height) && Url.Get(q, "filters") == Strings.Join(filters, ',')
  {
    FourSets("key", "width", "height", "filters",
             Strconv.Itoa(key), Strconv.Itoa(width), Strconv.Itoa(height), Strings.Join(filters, ','));
  }

  /** Proof helper: four `Set` calls on distinct names, read back. */
  lemma FourSets(a: string, b: string, c: string, d: string, x: string, y: string, z: string, w: string)
    requires a != b && a != c && a != d && b != c && b != d && c != d
    ensures var q := Url.Set(Url.Set(Url.Set(Url.Set([], a, x), b, y), c, z), d, w);
      Url.Get(q, a) == x && Url.Get(q, b) == y && Url.Get(q, c) == z && Url.Get(q, d) == w
  {
  }

  /** A query whose parameters read as the decimal texts of the options and
      the comma join of the filters parses to those options. */
  lemma ParseDecimalValues(q: Url.Values, key: int, width: int, height: int, filters: seq<string>)
    requires Strconv.IsInt64(key) && Strconv.IsInt64(width) && Strconv.IsInt64(height)
    requires |filters| >= 1
    requires forall i :: 0 <= i < |filters| ==> ',' !in filters[i]
    requires Url.Get(q, "key") == Strconv.Itoa(key) && Url.Get(q, "width") == Strconv.Itoa(width)
    requires Url.Get(q, "height") == Strconv.Itoa(height) && Url.Get(q, "filters") == Strings.Join(filters, ',')
    ensures ParseRequest(q) == Ok(Options(key, width, height, filters))
  {
    Strconv.AtoiItoa(key);
    Strconv.AtoiItoa(width);
    Strconv.AtoiItoa(height);
    Strings.SplitJoin(filters, ',');
  }

  /** With no query at all the request asks for key 0, a 600×400 image and
      the single empty filter. */
  lemma ParseEmptyQuery()
    ensures ParseRequest([]) == Ok(Options(0, 600, 400, [""]))
  {
    Strings.SplitNoSeparator("", ',');
  }

  /** The repository's example: `key=123&width=600&height=400&filters=grayscale,blur`. */
  lemma ParseExample()
    ensures ParseRequest(QueryOf(123, 600, 400, ["grayscale", "blur"])) == Ok(Options(123, 600, 400, ["grayscale", "blur"]))
  {
    ParseQueryOf(123, 600, 400, ["grayscale", "blur"]);
  }

  // ---------------------------------------------------------------------
  // Building the configurations

  /** The quote configuration builder for the options: a fresh one with the
      key set. */
  function QuoteBuilderOf(o: Options): (b: QuoteApi.QuoteConfigBuilder)
    ensures QuoteApi.Build(b).key == if o.quoteCategory <= QuoteApi.MaxKeyValue then o.quoteCategory else QuoteApi.MaxKeyValue
  {
    QuoteApi.WithKey(QuoteApi.NewQuoteConfigBuilder(), o.quoteCategory)
  }

  /** The image configuration builder for the options: a fresh one with the
      width, then the height set, and the filters appended. */
  function ImageBuilderOf(o: Options): (b: ImageApi.ImageConfigBuilder)
    ensures ImageApi.Build(b).width
            == if o.imageWidth <= ImageApi.MaxImageWidth then o.imageWidth else ImageApi.MaxImageWidth
    ensures ImageApi.Build(b).height
            == if o.imageHeight <= ImageApi.MaxImageHeight then o.imageHeight else ImageApi.MaxImageHeight
    ensures ImageApi.Build(b).filters == o.filters
  {
    var b := ImageApi.WithWidth(ImageApi.NewImageConfigBuilder(), o.imageWidth);
    var b := ImageApi.WithHeight(b, o.imageHeight);
    ImageApi.WithFilters(b, o.filters)
  }

  // ---------------------------------------------------------------------
  // Fetching

  const FetchErrorPrefix: string := "failed to get random quote with image: "

  /** The API the web app talks to: given the two builders it answers a
      quote, an image and an error, like `GetRandomQuoteWithImage`. */
  type API<I> = (QuoteApi.QuoteConfigBuilder, ImageApi.ImageConfigBuilder) -> Facade.FetchResult<I>

  /** The facade seen as that API; its goroutines finish quote first, which
      does not matter (`Facade.ScheduleIndependent`). */
  function FacadeAPI<I>(f: Facade.APIFacade<I>): (api: API<I>)
    ensures forall qb, ib :: api(qb, ib) == Facade.Combine(f.quoteProvider(qb), f.imageProvider(ib))
  {
    (qb, ib) => Facade.GetRandomQuoteWithImage(f, qb, ib, [Facade.QuoteWorker, Facade.ImageWorker])
  }

  /** `FetchQuoteAndImage`: ask the API with the builders for the options;
      an error comes back flattened behind the web app's prefix, with no
      quote and no image; otherwise the answer is passed through. */
  function FetchQuoteAndImage<I>(o: Options, api: API<I>): (r: Facade.FetchResult<I>)
    ensures var answer := api(QuoteBuilderOf(o), ImageBuilderOf(o));
      && (r.err.Some? <==> answer.err.Some?)
      && (r.err.None? ==> r.quote == answer.quote && r.image == answer.image)
      && (r.err.Some? ==> r.quote == "" && r.image == None
                          && Errors.Message(r.err.value) == FetchErrorPrefix + Errors.Message(answer.err.value)
                          && Errors.Unwrap(r.err.value) == None)
  {
    var answer := api(QuoteBuilderOf(o), ImageBuilderOf(o));
    if answer.err.Some? then Facade.FetchResult("", None, Some(Errors.Errorf(FetchErrorPrefix, answer.err.value)))
    else Facade.FetchResult(answer.quote, answer.image, None)
  }

  // ---------------------------------------------------------------------
  // Handling a request

  /** What the handler writes: a status, and for a failure the text
      `http.Error` writes (the message and a newline). A successful
      response's body is the page the display step rendered. */
  datatype Response = Response(status: int, errorBody: Option<string>)

  /** `http.Error(w, msg, code)`. The contract spells out what `http.Error`
      writes, which is all there is to it; it is wiring, not a proof. */
  function HttpError(msg: string, code: int): (r: Response)
    ensures r.status == code && r.errorBody == Some(msg + "\n")
  {
    Response(code, Some(msg + "\n"))
  }

  /** `HandleRandomImageQuote`: parse, fetch, display, stopping at the first
      failure. `display` stands for rendering the quote and the image into
      the page (`DisplayContent`) and answers its error, if any. */
  function HandleRandomImageQuote<I>(query: Url.Values, api: API<I>,
                                     display: (string, Option<I>) -> Option<Errors.Error>): (r: Response)
    ensures var parsed := ParseRequest(query);
      && (r.status == StatusBadRequest <==> parsed.Err?)
      && (parsed.Err? ==> r.errorBody == Some(InvalidRequestText + "\n"))
      && (parsed.Ok? ==>
            var fetched := FetchQuoteAndImage(parsed.value, api);
            && (fetched.err.Some? ==> r == Response(StatusInternalServerError, Some(FetchFailedText + "\n")))
            && (fetched.err.None? && display(fetched.quote, fetched.image).Some? ==>
                  r == Response(StatusInternalServerError, Some(DisplayFailedText + "\n")))
            && (r.status == StatusOK <==> fetched.err.None? && display(fetched.quote, fetched.image).None?))
    ensures r.status in {StatusOK, StatusBadRequest, StatusInternalServerError}
    ensures r.status == StatusOK <==> r.errorBody.None?
  {
    match ParseRequest(query)
    case Err(_) => HttpError(InvalidRequestText, StatusBadRequest)
    case Ok(o) =>
      var fetched := FetchQuoteAndImage(o, api);
      if fetched.err.Some? then HttpError(FetchFailedText, StatusInternalServerError)
      else if display(fetched.quote, fetched.image).Some? then HttpError(DisplayFailedText, StatusInternalServerError)
      else Response(StatusOK, None)
  }

  /** A request is served with 200 exactly when its parameters parse, the
      API answers without an error and the page renders. */
  lemma HandleSucceeds<I>(query: Url.Values, api: API<I>, display: (string, Option<I>) -> Option<Errors.Error>)
    ensures HandleRandomImageQuote(query, api, display).status == StatusOK
            <==> && ParseRequest(query).Ok?
                 && api(QuoteBuilderOf(ParseRequest(query).value), ImageBuilderOf(ParseRequest(query).value)).err.None?
                 && var answer := api(QuoteBuilderOf(ParseRequest(query).value), ImageBuilderOf(ParseRequest(query).value));
                    display(answer.quote, answer.image).None?
  {
  }

  /** With the real facade and default providers, a request that parses
      is served with 200 exactly when both providers' URLs, built from the
      clamped options, fetch successfully and the page renders. */
  lemma EndToEnd<I>(query: Url.Values, quoteFetch: string -> Result<string, Errors.Error>,
                    imageFetch: string -> Result<I, Errors.Error>,
                    display: (string, Option<I>) -> Option<Errors.Error>)
    requires ParseRequest(query).Ok?
    ensures var o := ParseRequest(query).value;
      var qo := quoteFetch(QuoteApi.BuildPath(QuoteApi.BuildAPI(QuoteApi.NewQuoteApiBuilder()), QuoteApi.Build(QuoteBuilderOf(o))));
      var io := imageFetch(ImageApi.BuildPath(ImageApi.BuildAPI(ImageApi.NewImageAPIBuilder()), ImageApi.Build(ImageBuilderOf(o))));
      var r := HandleRandomImageQuote(query, FacadeAPI(Facade.NewAPIFacade(quoteFetch, imageFetch)), display);
      r.status == StatusOK <==> qo.Ok? && io.Ok? && display(qo.value, Some(io.value)).None?
  {
    var o := ParseRequest(query).value;
    var f := Facade.NewAPIFacade(quoteFetch, imageFetch);
    var qb, ib := QuoteBuilderOf(o), ImageBuilderOf(o);
    var api := FacadeAPI(f);
    HandleSucceeds(query, api, display);
    assert api(qb, ib) == Facade.GetRandomQuoteWithImage(f, qb, ib, [Facade.QuoteWorker, Facade.ImageWorker]);
    Facade.DefaultFacade(quoteFetch, imageFetch, qb, ib, [Facade.QuoteWorker, Facade.ImageWorker]);
  }

  /** The repository's examples: a request without parameters and an API
      that answers is served with 200; an API error gives 500 "Failed to
      fetch data". */
  lemma HandleExamples<I>(img: I)
    ensures HandleRandomImageQuote([], (qb, ib) => Facade.FetchResult("Random Quote", Some(img), None),
                                   (q, i) => None).status == StatusOK
    ensures HandleRandomImageQuote([], (qb, ib) => Facade.FetchResult("", Some(img),
                                                                      Some(Errors.Plain("Failed to fetch random quote image"))),
                                   (q, i) => None)
            == Response(StatusInternalServerError, Some(FetchFailedText + "\n"))
  {
    ParseEmptyQuery();
  }
}
