/** The facade that asks the quote provider and the image provider at the
    same time and hands back both results, or one error, never half of it. */
module Facade {
  import opened Wrappers
  import Errors
  import QuoteApi
  import ImageApi

  /** The text both failure branches put in front of the provider's error
      (the image branch says "quote" too). */
  const FacadeErrorPrefix: string := "error calling quote api: "

  /** A quote provider answers a quote configuration builder; an image
      provider answers an image configuration builder. `I` stands for the
      decoded image. */
  datatype APIFacade<I> = APIFacade(
    quoteProvider: QuoteApi.QuoteConfigBuilder -> Result<string, Errors.Error>,
    imageProvider: ImageApi.ImageConfigBuilder -> Result<I, Errors.Error>)

  /** The three values `GetRandomQuoteWithImage` returns: quote, image (nil
      is `None`) and error (nil is `None`). */
  datatype FetchResult<I> = FetchResult(quote: string, image: Option<I>, err: Option<Errors.Error>)

  /** `NewAPIFacade`: both providers built from the default API builders.
      Each provider's network exchange is the given fetch function of the
      request URL. The contract is the wiring itself, field by field;
      `DefaultFacade` states what it implies for a call. */
  function NewAPIFacade<I>(quoteFetch: string -> Result<string, Errors.Error>,
                           imageFetch: string -> Result<I, Errors.Error>): (f: APIFacade<I>)
    ensures forall qb ::
              f.quoteProvider(qb) == QuoteApi.GetRandomQuote(QuoteApi.BuildAPI(QuoteApi.NewQuoteApiBuilder()), qb, quoteFetch)
    ensures forall ib ::
              f.imageProvider(ib) == ImageApi.GetRandomImage(ImageApi.BuildAPI(ImageApi.NewImageAPIBuilder()), ib, imageFetch)
  {
    APIFacade(
      qb => QuoteApi.GetRandomQuote(QuoteApi.BuildAPI(QuoteApi.NewQuoteApiBuilder()), qb, quoteFetch),
      ib => ImageApi.GetRandomImage(ImageApi.BuildAPI(ImageApi.NewImageAPIBuilder()), ib, imageFetch))
  }

  // ---------------------------------------------------------------------
  // The two goroutines

  /** The goroutine that fetches the quote and the one that fetches the image. */
  datatype Worker = QuoteWorker | ImageWorker

  /** The variables the goroutines assign: unset until their goroutine ran. */
  datatype Slots<I> = Slots(quote: Option<Result<string, Errors.Error>>,
                            image: Option<Result<I, Errors.Error>>)

  /** One goroutine finishes: it stores its provider's answer in its own
      variables and touches nothing else. */
  function Run<I>(s: Slots<I>, w: Worker, q: Result<string, Errors.Error>, i: Result<I, Errors.Error>)
    : (r: Slots<I>)
    ensures w == QuoteWorker ==> r.quote == Some(q) && r.image == s.image
    ensures w == ImageWorker ==> r.image == Some(i) && r.quote == s.quote
  {
    match w
    case QuoteWorker => s.(quote := Some(q))
    case ImageWorker => s.(image := Some(i))
  }

  /** The goroutines finish in the order `schedule` gives. */
  function RunAll<I>(s: Slots<I>, schedule: seq<Worker>, q: Result<string, Errors.Error>,
                     i: Result<I, Errors.Error>): Slots<I>
    decreases |schedule|
  {
    if |schedule| == 0 then s else RunAll(Run(s, schedule[0], q, i), schedule[1..], q, i)
  }

  /** What `wg.Wait` guarantees: each of the two goroutines ran exactly once. */
  predicate Finished(schedule: seq<Worker>)
  {
    multiset(schedule) == multiset{QuoteWorker, ImageWorker}
  }

  /** After any order of completions a slot holds its provider's answer
      exactly when its goroutine is in the order, and is untouched otherwise. */
  lemma {:induction false} RunAllSlots<I>(s: Slots<I>, schedule: seq<Worker>,
                                          q: Result<string, Errors.Error>, i: Result<I, Errors.Error>)
    ensures RunAll(s, schedule, q, i).quote == (if QuoteWorker in schedule then Some(q) else s.quote)
    ensures RunAll(s, schedule, q, i).image == (if ImageWorker in schedule then Some(i) else s.image)
    decreases |schedule|
  {
    if |schedule| > 0 {
      var t := Run(s, schedule[0], q, i);
      RunAllSlots(t, schedule[1..], q, i);
      assert schedule == [schedule[0]] + schedule[1..];
      assert forall w :: w in schedule <==> w == schedule[0] || w in schedule[1..];
    }
  }

  /** Once both goroutines finished, both slots are filled with the
      providers' answers, whichever finished first. */
  lemma FinishedFillsBoth<I>(schedule: seq<Worker>, q: Result<string, Errors.Error>, i: Result<I, Errors.Error>)
    requires Finished(schedule)
    ensures RunAll(Slots(None, None), schedule, q, i) == Slots(Some(q), Some(i))
  {
    assert QuoteWorker in multiset(schedule);
    assert ImageWorker in multiset(schedule);
    RunAllSlots(Slots(None, None), schedule, q, i);
  }

  // ---------------------------------------------------------------------
  // Joining the answers

  /** The checks after `wg.Wait`: a quote error wins, then an image error,
      each wrapped with `%w`; only two successes give quote and image. */
  function Combine<I>(q: Result<string, Errors.Error>, i: Result<I, Errors.Error>): (r: FetchResult<I>)
    ensures r.err.None? <==> q.Ok? && i.Ok?
    ensures r.err.None? ==> r.quote == q.value && r.image == Some(i.value)
    ensures r.err.Some? ==> r.quote == "" && r.image == None
    ensures q.Err? ==> Errors.Unwrap(r.err.value) == Some(q.error)
    ensures q.Ok? && i.Err? ==> Errors.Unwrap(r.err.value) == Some(i.error)
    ensures r.err.Some? ==>
              Errors.Message(r.err.value) == FacadeErrorPrefix + Errors.Message(if q.Err? then q.error else i.error)
  {
    if q.Err? then FetchResult("", None, Some(Errors.Wrapf(FacadeErrorPrefix, q.error)))
    else if i.Err? then FetchResult("", None, Some(Errors.Wrapf(FacadeErrorPrefix, i.error)))
    else FetchResult(q.value, Some(i.value), None)
  }

  /** `GetRandomQuoteWithImage`: both providers run, the goroutines finish
      in the order `schedule` gives, then the answers are joined. */
  function GetRandomQuoteWithImage<I>(f: APIFacade<I>, qb: QuoteApi.QuoteConfigBuilder,
                                      ib: ImageApi.ImageConfigBuilder, schedule: seq<Worker>)
    : (r: FetchResult<I>)
    requires Finished(schedule)
    ensures r == Combine(f.quoteProvider(qb), f.imageProvider(ib))
  {
    var q := f.quoteProvider(qb);
    var i := f.imageProvider(ib);
    var slots := RunAll(Slots(None, None), schedule, q, i);
    FinishedFillsBoth(schedule, q, i);
    Combine(slots.quote.value, slots.image.value)
  }

  /** The order in which the goroutines finish does not change the result. */
  lemma ScheduleIndependent<I>(f: APIFacade<I>, qb: QuoteApi.QuoteConfigBuilder,
                               ib: ImageApi.ImageConfigBuilder, s1: seq<Worker>, s2: seq<Worker>)
    requires Finished(s1) && Finished(s2)
    ensures GetRandomQuoteWithImage(f, qb, ib, s1) == GetRandomQuoteWithImage(f, qb, ib, s2)
  {
  }

  /** Never a partial answer: either no error together with the quote and
      an image, or an error with an empty quote and no image. */
  lemma NeverPartial<I>(f: APIFacade<I>, qb: QuoteApi.QuoteConfigBuilder,
                        ib: ImageApi.ImageConfigBuilder, schedule: seq<Worker>)
    requires Finished(schedule)
    ensures var r := GetRandomQuoteWithImage(f, qb, ib, schedule);
      || (r.err.None? && r.image.Some? && f.quoteProvider(qb) == Ok(r.quote)
          && f.imageProvider(ib) == Ok(r.image.value))
      || (r.err.Some? && r.quote == "" && r.image.None?)
  {
  }

  /** When both providers fail, the error reported is the quote provider's,
      still reachable through `errors.Is`. */
  lemma QuoteErrorWins<I>(f: APIFacade<I>, qb: QuoteApi.QuoteConfigBuilder,
                          ib: ImageApi.ImageConfigBuilder, schedule: seq<Worker>)
    requires Finished(schedule)
    requires f.quoteProvider(qb).Err?
    ensures var r := GetRandomQuoteWithImage(f, qb, ib, schedule);
      r.err.Some? && Errors.Is(r.err.value, f.quoteProvider(qb).error)
  {
  }

  /** With the default providers, the call succeeds exactly when both
      request URLs fetch successfully, and a failure reads as the facade's
      prefix, the failing provider's prefix and the fetch error. */
  lemma DefaultFacade<I>(quoteFetch: string -> Result<string, Errors.Error>,
                         imageFetch: string -> Result<I, Errors.Error>,
                         qb: QuoteApi.QuoteConfigBuilder, ib: ImageApi.ImageConfigBuilder,
                         schedule: seq<Worker>)
    requires Finished(schedule)
    ensures var qo := quoteFetch(QuoteApi.BuildPath(QuoteApi.BuildAPI(QuoteApi.NewQuoteApiBuilder()), QuoteApi.Build(qb)));
      var io := imageFetch(ImageApi.BuildPath(ImageApi.BuildAPI(ImageApi.NewImageAPIBuilder()), ImageApi.Build(ib)));
      var r := GetRandomQuoteWithImage(NewAPIFacade(quoteFetch, imageFetch), qb, ib, schedule);
      && (r.err.None? <==> qo.Ok? && io.Ok?)
      && (r.err.None? ==> r.quote == qo.value && r.image == Some(io.value))
      && (qo.Err? ==>
            Errors.Message(r.err.value) == FacadeErrorPrefix + QuoteApi.QuoteErrorPrefix + Errors.Message(qo.error))
      && (qo.Ok? && io.Err? ==>
            Errors.Message(r.err.value) == FacadeErrorPrefix + ImageApi.ImageErrorPrefix + Errors.Message(io.error))
  {
    var f := NewAPIFacade(quoteFetch, imageFetch);
    var qapi := QuoteApi.BuildAPI(QuoteApi.NewQuoteApiBuilder());
    var iapi := ImageApi.BuildAPI(ImageApi.NewImageAPIBuilder());
    ProvidersAnswer(qapi, iapi, quoteFetch, imageFetch, f, qb, ib, schedule);
  }

  lemma ProvidersAnswer<I>(qapi: QuoteApi.QuoteAPI, iapi: ImageApi.ImageAPI,
                           quoteFetch: string -> Result<string, Errors.Error>,
                           imageFetch: string -> Result<I, Errors.Error>, f: APIFacade<I>,
                           qb: QuoteApi.QuoteConfigBuilder, ib: ImageApi.ImageConfigBuilder,
                           schedule: seq<Worker>)
    requires Finished(schedule)
    requires f.quoteProvider(qb) == QuoteApi.GetRandomQuote(qapi, qb, quoteFetch)
    requires f.imageProvider(ib) == ImageApi.GetRandomImage(iapi, ib, imageFetch)
    ensures var qo := quoteFetch(QuoteApi.BuildPath(qapi, QuoteApi.Build(qb)));
      var io := imageFetch(ImageApi.BuildPath(iapi, ImageApi.Build(ib)));
      var r := GetRandomQuoteWithImage(f, qb, ib, schedule);
      && (r.err.None? <==> qo.Ok? && io.Ok?)
      && (r.err.None? ==> r.quote == qo.value && r.image == Some(io.value))
      && (qo.Err? ==>
            Errors.Message(r.err.value) == FacadeErrorPrefix + QuoteApi.QuoteErrorPrefix + Errors.Message(qo.error))
      && (qo.Ok? && io.Err? ==>
            Errors.Message(r.err.value) == FacadeErrorPrefix + ImageApi.ImageErrorPrefix + Errors.Message(io.error))
  {
    var q := f.quoteProvider(qb);
    var i := f.imageProvider(ib);
    var r := GetRandomQuoteWithImage(f, qb, ib, schedule);
    assert r == Combine(q, i);
    if q.Err? {
      assert Errors.Message(r.err.value) == FacadeErrorPrefix + Errors.Message(q.error);
    } else if i.Err? {
      assert Errors.Message(r.err.value) == FacadeErrorPrefix + Errors.Message(i.error);
    }
  }
}
