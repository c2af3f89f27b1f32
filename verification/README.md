# Random quote with image: the request pipeline

This project models the deterministic part of a small Go service. The service
asks forismatic.com for a random quote and picsum.photos for a random image,
fetching both at the same time, and serves the pair as a web page. The model
covers four pieces:

- **Image request** (`ImageApi`). The configuration builder starts at 200×300
  with no filters. It clamps width and height from above to 1920 and 1080.
  It appends filters. `buildPath` renders `base/W/H.jpg`, with a `?` and the
  filter query only when that query is non-empty.
- **Quote request** (`QuoteApi`). The API builder defaults to method
  `getQuote`, format `json` and language `en`, and has one setter per field.
  The key is clamped to `min(key, 999999)`. The request URL carries the
  parameters `format`, `key` (only when the key is positive), `lang` and
  `method`, sorted by name as `url.Values.Encode` sorts them.
- **Facade** (`Facade`). Two goroutines each fill their own result slot. After
  both finish, a quote error wins, then an image error, and otherwise both
  payloads are returned. The answer is never partial.
- **Web handler** (`Web`).
  - Query parameters default to key 0 and a 600×400 image. They are checked
    in the order key, width, height.
  - Filters are the `filters` parameter split on commas.
  - The options become the two builder chains.
  - A parse error maps to status 400, a fetch error or a display error to
    500, and anything else to 200.

The Go standard-library calls these pieces rely on are modelled concretely
rather than left abstract, so that round trips can be proved:
- `strings.Split` and `strings.Join`: module `Strings`.
- `strconv.Itoa` and `strconv.Atoi`: module `Strconv`. `Atoi` takes an
  optional sign, at least one ASCII digit and a value in the 64-bit range.
- `url.QueryEscape`, `url.Values` with `Get`, `Set` and `Encode`, and setting
  a raw query: module `Url`.
- Go error values: module `Errors`. `%w` keeps the cause reachable through
  `errors.Unwrap` and `errors.Is`; `%s` keeps only its text.

Builders are immutable values. Each Go setter that mutates the builder and
returns it becomes a function that returns the updated builder. `Build` is a
projection, so two `Build` calls with no setter in between give the same
configuration.

Each provider's network exchange is a function parameter of the request URL.
That exchange is the HTTP GET, the status check, the JSON or JPEG decode, and
the retries. The display step of the web handler is also a function parameter.
The order in which the two facade goroutines finish is a parameter too.

The builders have no lower bound. Zero and negative widths, heights and keys
pass through unchanged (internal/api/imageapi/api.go:93-110,
internal/api/quoteapi/api.go:107-110). A key of 0 or less only drops the
`key` parameter (internal/api/quoteapi/api.go:177).

Two texts in the source are kept exactly as written:
- Both facade failure branches wrap the error with the text
  `error calling quote api: `, the image branch included. The quote provider's
  own failure text reads `failed to get image from random quote API after
  retries: `.

## Model

| member | source | states |
|---|---|---|
| `ImageApi.NewImageAPIBuilder` | internal/api/imageapi/api.go:63-69 | the built image API uses the base URL `https://picsum.photos` |
| `ImageApi.WithBaseURL` | internal/api/imageapi/api.go:72-75 | the built API has exactly the given base URL and nothing else |
| `ImageApi.BuildAPI` | internal/api/imageapi/api.go:78-80 | `Build` on the API builder hands back the API as set so far; no contract of its own, its results are stated by `NewImageAPIBuilder` and `WithBaseURL` |
| `ImageApi.NewImageConfigBuilder` | internal/api/imageapi/api.go:83-90 | a fresh configuration is width 200, height 300, no filters, and is within the upper bounds |
| `ImageApi.Build` | internal/api/imageapi/api.go:119-121 | `Build` on the configuration builder hands back the configuration as set so far; no contract of its own, the setters' contracts and the `ApplyAll…` lemmas state what it returns |
| `ImageApi.WithWidth` | internal/api/imageapi/api.go:93-100 | the width becomes `min(w, 1920)`: values up to 1920, including zero and negatives, are kept; height and filters are unchanged |
| `ImageApi.WithHeight` | internal/api/imageapi/api.go:103-110 | the height becomes `min(h, 1080)`: values up to 1080 are kept; width and filters are unchanged |
| `ImageApi.WithFilters` | internal/api/imageapi/api.go:113-116 | the new filter list is the old one followed by the given filters, order and duplicates kept; width and height are unchanged |
| `ImageApi.WithFiltersTwice` | internal/api/imageapi/api.go:113-116 | appending two filter lists one after the other is the same as appending their concatenation |
| `ImageApi.ApplyAllFilters` | internal/api/imageapi/api.go:93-116 | after any chain of setter calls the filters are the starting ones followed by every added list in call order |
| `ImageApi.ApplyAllWidth` | internal/api/imageapi/api.go:93-100 | in a chain of setter calls the last width call decides the width (clamped); with no width call the width is unchanged |
| `ImageApi.ApplyAllHeight` | internal/api/imageapi/api.go:103-110 | in a chain of setter calls the last height call decides the height (clamped); with no height call the height is unchanged |
| `ImageApi.ApplyAllWithinBounds` | internal/api/imageapi/api.go:93-110 | a configuration within 1920×1080 stays within it whatever setters are chained onto it |
| `ImageApi.RenderFilter` | internal/api/imageapi/api.go:175-180 | only `grayscale` and `blur` write their own name; any other filter writes nothing |
| `ImageApi.FilterOptions` | internal/api/imageapi/api.go:170-182 | the filter loop of `buildPath`; no contract of its own, its meaning is stated by `FilterOptionsJoin`, `FilterOptionsSplit` and `FilterOptionsEmpty` |
| `ImageApi.FilterOptionsJoin` | internal/api/imageapi/api.go:170-182 | the loop's output equals the rendered filters joined with `&` |
| `ImageApi.FilterOptionsSplit` | internal/api/imageapi/api.go:171-181 | for a non-empty filter list the filter text has exactly one `&` fewer than there are filters, and splitting it on `&` gives back each filter's rendering |
| `ImageApi.FilterOptionsEmpty` | internal/api/imageapi/api.go:171-188 | the filter text is empty exactly when there are no filters or a single unrecognised one |
| `ImageApi.BuildPath` | internal/api/imageapi/api.go:168-193 | `buildPath`; no contract of its own, its meaning is stated by `BuildPathShape` and by the read-back `ReadBuildPath` |
| `ImageApi.BuildPathShape` | internal/api/imageapi/api.go:168-193 | the path starts with `base/W/H.jpg`; a `?` follows exactly when the filter text is non-empty, and then the rest is the filter text |
| `ImageApi.ReadBuildPath` | internal/api/imageapi/api.go:168-193 | a service reading the path under the base URL recovers the width, the height and, when there is a query, each filter's rendering in order |
| `ImageApi.GetRandomImage` | internal/api/imageapi/api.go:124-165 | the fetch of the built path decides success; an image passes through unchanged; a failure becomes a flat error reading `failed to get image from random image API after retries: ` plus the cause's text |
| `ImageApi.DefaultPath` | internal/api/imageapi/api_test.go:35-41 | the default configuration requests `https://picsum.photos/200/300.jpg` |
| `ImageApi.SizeAndFiltersPath` | internal/api/imageapi/api_test.go:27-33 | 400×600 with `blur, grayscale` requests `https://picsum.photos/400/600.jpg?blur&grayscale` |
| `ImageApi.SeparatorOfUnknownFilter` | internal/api/imageapi/api.go:171-181 | `["x","blur"]` still writes a separator, giving `&blur`; `[""]` gives no query at all |
| `QuoteApi.NewQuoteApiBuilder` | internal/api/quoteapi/api.go:59-68 | the default quote API uses the forismatic base URL, method `getQuote`, format `json` and language `en` |
| `QuoteApi.WithBaseURL` | internal/api/quoteapi/api.go:71-74 | sets the base URL; method, format and language are unchanged |
| `QuoteApi.WithMethod` | internal/api/quoteapi/api.go:77-80 | sets the method; base URL, format and language are unchanged |
| `QuoteApi.WithFormat` | internal/api/quoteapi/api.go:83-86 | sets the format; base URL, method and language are unchanged |
| `QuoteApi.WithLanguage` | internal/api/quoteapi/api.go:89-92 | sets the language; base URL, method and format are unchanged |
| `QuoteApi.ApiBuilderSetters` | internal/api/quoteapi/api_test.go:38-47 | chaining all four setters gives exactly the API with those four values |
| `QuoteApi.BuildAPI` | internal/api/quoteapi/api.go:95-97 | `Build` on the API builder hands back the API as set so far; no contract of its own, its results are stated by `NewQuoteApiBuilder`, the four setters and `ApiBuilderSetters` |
| `QuoteApi.NewQuoteConfigBuilder` | internal/api/quoteapi/api.go:100-104 | a fresh quote configuration has key 0 |
| `QuoteApi.WithKey` | internal/api/quoteapi/api.go:107-110 | the key becomes `min(key, 999999)`, with no lower clamp |
| `QuoteApi.Build` | internal/api/quoteapi/api.go:113-115 | `Build` on the configuration builder hands back the configuration as set so far; no contract of its own, `NewQuoteConfigBuilder` and `WithKey` state what it returns |
| `QuoteApi.WithKeyTwice` | internal/api/quoteapi/api.go:107-110 | a second key setting replaces the first |
| `QuoteApi.PositiveKeyUnescaped` | internal/api/quoteapi/api.go:177-179 | the decimal text of a positive key passes query escaping unchanged |
| `QuoteApi.QueryValues` | internal/api/quoteapi/api.go:171-179 | the query holds each name at most once, as Go's map does; `method`, `lang` and `format` read back the API's fields; `key` reads back the key's decimal text when the key is positive and is absent (reads as empty) otherwise; there are four entries with a positive key and three without |
| `QuoteApi.SortedQueryValues` | internal/api/quoteapi/api.go:171-181 | sorting the query values by name gives `format`, `key` (for a positive key), `lang`, `method` |
| `QuoteApi.QueryPairs` | internal/api/quoteapi/api.go:171-181 | the encoded pairs are `format`, then `key=<decimal>` only for a positive key, then `lang` and `method`, each value escaped |
| `QuoteApi.KeyPair` | internal/api/quoteapi/api.go:177-179 | the key pair of a positive key reads `key=` followed by its decimal text |
| `QuoteApi.BuildPathQuery` | internal/api/quoteapi/api.go:169-183 | the URL is the base URL, `?`, and the sorted pairs joined by `&` |
| `QuoteApi.BuildPath` | internal/api/quoteapi/api.go:169-183 | `buildPath`; no contract of its own, its meaning is stated by `BuildPathQuery`, `QueryPairs` and `QueryParameters` |
| `QuoteApi.QueryParameters` | internal/api/quoteapi/api.go:171-181 | splitting the query on `&` gives four parameters for a positive key and exactly `format`, `lang`, `method` otherwise |
| `QuoteApi.GetRandomQuote` | internal/api/quoteapi/api.go:123-166 | the fetch of the built URL decides success; the quote text passes through; a failure becomes a flat error reading `failed to get image from random quote API after retries: ` plus the cause's text |
| `QuoteApi.DefaultPairsWithKey` | internal/api/quoteapi/api_test.go:29-36 | the default API with key 100 sends `format=json`, `key=100`, `lang=en`, `method=getQuote` in that order |
| `QuoteApi.DefaultPathWithKey` | internal/api/quoteapi/api_test.go:29-36 | the default API with key 100 requests `http://api.forismatic.com/api/1.0/?format=json&key=100&lang=en&method=getQuote` |
| `Facade.NewAPIFacade` | internal/api/facade/facade.go:20-25 | both providers are the default-built quote and image APIs over the given fetches |
| `Facade.Run` | internal/api/facade/facade.go:36-44 | a finishing goroutine writes only its own result slot |
| `Facade.RunAllSlots` | internal/api/facade/facade.go:35-46 | after any completion order a slot holds its provider's answer exactly when its goroutine ran, and is untouched otherwise |
| `Facade.FinishedFillsBoth` | internal/api/facade/facade.go:35-46 | once each goroutine has run exactly once, both slots hold their providers' answers, whichever finished first |
| `Facade.Combine` | internal/api/facade/facade.go:48-56 | no error exactly when both succeeded, and then the quote and image unchanged; otherwise empty quote, no image, and an error wrapping (`%w`) the quote error if there is one, else the image error, behind `error calling quote api: ` |
| `Facade.GetRandomQuoteWithImage` | internal/api/facade/facade.go:29-57 | after both goroutines finish, in any order, the result is the combination of the two providers' answers |
| `Facade.DefaultFacade` | internal/api/facade/facade.go:20-57 | with the default providers the call succeeds exactly when both request URLs fetch, passes both payloads through, and a failure's text is the facade prefix, the provider prefix and the fetch error |
| `Web.ParseRequest` | internal/app/web/web.go:104-147 | absent or empty numeric parameters take 0, 600 and 400; a given one must parse as an integer; the first bad one, in the order key, width, height, is reported; filters are the `filters` text split on commas |
| `Web.ParseQueryOf` | internal/app/web/web.go:107-142 | options written into the query in decimal, with filters joined by commas, are read back unchanged |
| `Web.ParseEmptyQuery` | internal/app/web/web.go:24-28 | with no query parameters the options are key 0, width 600, height 400 and the single empty filter |
| `Web.ParseExample` | internal/app/web/web_test.go:54-75 | `key=123&width=600&height=400&filters=grayscale,blur` is read as 123, 600, 400 and `["grayscale","blur"]` |
| `Web.QuoteBuilderOf` | internal/app/web/web.go:151 | the quote builder carries key `min(key, 999999)` |
| `Web.ImageBuilderOf` | internal/app/web/web.go:152 | the image builder carries `min(width, 1920)`, `min(height, 1080)` and the filters exactly as parsed |
| `Web.FacadeAPI` | internal/app/web/web.go:154 | the facade answers the web app with the combination of its providers' answers |
| `Web.FetchQuoteAndImage` | internal/app/web/web.go:149-161 | an API error comes back as an empty quote, no image and a flat error reading `failed to get random quote with image: ` plus the cause; otherwise quote and image pass through |
| `Web.HttpError` | internal/app/web/web.go:83-97 | `http.Error` answers with the given status and the message followed by a newline |
| `Web.HandleRandomImageQuote` | internal/app/web/web.go:73-102 | status 400 exactly on a parse error; 500 with `Failed to fetch data` on a fetch error; 500 with `Failed to display data` on a display error; 200, with no error text, exactly when all three steps succeed |
| `Web.EndToEnd` | internal/app/web/web.go:73-161 | with the real facade, a request that parses gets 200 exactly when both providers' URLs, built from the clamped options, fetch and the page renders |
| `Web.HandleExamples` | internal/app/web/web_test.go:27-52 | a bare request with an answering API gets 200; an API error gets 500 `Failed to fetch data` |
| `Strings.Split` | internal/app/web/web.go:142 | `strings.Split` gives one more piece than there are separators, and no piece holds the separator |
| `Strings.JoinSplit` | internal/app/web/web.go:141-142 | joining the pieces of a split with the separator gives back the text |
| `Strings.SplitJoin` | internal/app/web/web.go:141-142 | splitting a join of separator-free pieces gives back the pieces |
| `Strconv.Itoa` | internal/api/quoteapi/api.go:178 | `strconv.Itoa` writes the canonical decimal text: only digits for a non-negative number and a `-` followed by digits for a negative one, with no leading zero except for 0 itself |
| `Strconv.Atoi` | internal/app/web/web.go:109-139 | a parsed value lies in the 64-bit range, and the empty text never parses |
| `Strconv.AtoiItoa` | internal/app/web/web.go:109-139 | parsing the decimal text of any 64-bit integer gives that integer |
| `Strconv.AtoiRejectsNonDigit` | internal/app/web/web.go:109-139 | a text with a character that is not a digit (other than a leading sign) does not parse |
| `Url.QueryEscape` | internal/api/quoteapi/api.go:181 | the escaped text is at least as long as the input and holds only unreserved characters (letters, digits, `-`, `_`, `.`, `~`), `+` and `%` |
| `Url.Get` | internal/app/web/web.go:109-141 | `Values.Get` of a name that is not present reads as the empty text; `Url.GetFirst` states the present case |
| `Url.GetFirst` | internal/app/web/web.go:109-141 | `Values.Get` of a present name reads as the first value of its first entry, or the empty text when that entry holds no value |
| `Url.Set` | internal/api/quoteapi/api.go:177-179 | after `Set` the key reads back the new value, every other key reads as before, and distinct keys stay distinct |
| `Url.SortByKeyCorrect` | internal/api/quoteapi/api.go:181 | encoding orders the entries by key: a permutation of the values, sorted by name |
| `Url.EncodeSplit` | internal/api/quoteapi/api.go:181 | splitting the encoded query on `&` gives the escaped `name=value` pairs in sorted order |
| `Url.Encode` | internal/api/quoteapi/api.go:181 | `Values.Encode`; no contract of its own, its meaning is stated by `SortByKeyCorrect` and `EncodeSplit` |
| `Url.WithRawQuery` | internal/api/quoteapi/api.go:181-182 | setting a raw query: an empty query leaves the base URL as it is; otherwise the URL is the base URL, `?`, then the query |
| `Url.UnescapeEscape` | internal/api/quoteapi/api.go:181 | unescaping the escape of an ASCII text gives the text back |
| `Errors.Wrapf` | internal/api/facade/facade.go:48-54 | a `%w` error's text is the prefix plus the cause's text, and the cause stays reachable |
| `Errors.Errorf` | internal/app/web/web.go:155-158 | a `%s` error's text is the prefix plus the cause's text, and no cause is reachable |

## Left out

- Network access, HTTP status checks, JSON and JPEG decoding, and the
  `retry-go` policy (attempts, back-off delays, retry callbacks) inside the
  providers. Each provider's exchange is one opaque fetch function of the
  request URL.
- Goroutines and `sync.WaitGroup` as runtime objects. Only the completion
  order of the two goroutines is modelled, as a sequence of workers in which
  each appears exactly once.
- `url.Parse` of the quote base URL. The base URL is an opaque prefix with no
  query of its own, and the encoded query is attached after a `?`.
- Url.UnescapeEscape: proved for ASCII text only; `url.QueryUnescape` of
  non-ASCII text (multi-byte UTF-8 escapes) is not modelled.
- Web.ParseRequest: the error carries the parameter's name and text, not the
  text `strconv.Atoi` writes after `invalid value for … parameter: `. The
  error kind (syntax or range) is dropped too.
- Parsing the raw request query into `url.Values`. The handler starts from
  the parsed values.
- Logging, the server's `Run`, base64 and JPEG re-encoding, and template
  rendering in `DisplayContent`. The display step is one opaque function that
  answers an error or none.
- Web.HandleRandomImageQuote: concurrent requests are not modelled. The Go
  handler keeps each request's state in fields of the one shared `WebApp`:
  the request and response writer (internal/app/web/web.go:77-78), the parsed
  options (web.go:107-142) and the rendered content (web.go:171-172). `Run`
  registers the handler on that single value (web.go:64), and `net/http`
  serves requests concurrently. Two overlapping requests can therefore read
  each other's query or write to each other's response. The model treats each
  request as a function of its own query, which holds only when requests do
  not overlap.
- Web.HandleRandomImageQuote: a template that fails after writing part of
  the page would leave the status at 200 in `net/http`. The model reports 500,
  as the handler's code intends.
- Pointer sharing between Go builders: a built Go API value aliases its
  builder, so later setter calls would change it. The model's builders are
  values, and the source never reuses a builder after `Build`.
- The terminal front end, the static HTML template, the `cmd` entry points,
  and the option record and logging constants in `internal/app` and
  `internal/shared`. The option record is reused as `Web.Options`.
