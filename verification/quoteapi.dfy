/** The quote provider: its connection parameters and their builder, the
    request configuration and its builder, the request URL it builds for the
    quote service, and the provider call around an opaque fetch (HTTP GET,
    retries and JSON decoding). */
module QuoteApi {
  import opened Wrappers
  import Errors
  import Strings
  import Strconv
  import Url

  const DefaultBaseUrl: string := "http://api.forismatic.com/api/1.0/"
  const DefaultMethod: string := "getQuote"
  const DefaultFormat: string := "json"
  const DefaultLanguage: string := "en"
  const MaxKeyValue: int := 999999

  /** The provider's fixed connection parameters. */
  datatype QuoteAPI = QuoteAPI(baseURL: string, methodName: string, format: string, language: string)

  datatype QuoteApiBuilder = QuoteApiBuilder(api: QuoteAPI)

  /** What the provider is asked for: a key, sent only when positive. */
  datatype QuoteConfig = QuoteConfig(key: int)

  datatype QuoteConfigBuilder = QuoteConfigBuilder(config: QuoteConfig)

  // ---------------------------------------------------------------------
  // Provider builder

  function NewQuoteApiBuilder(): (b: QuoteApiBuilder)
    ensures BuildAPI(b) == QuoteAPI(DefaultBaseUrl, DefaultMethod, DefaultFormat, DefaultLanguage)
  {
    QuoteApiBuilder(QuoteAPI(DefaultBaseUrl, DefaultMethod, DefaultFormat, DefaultLanguage))
  }

  function WithBaseURL(b: QuoteApiBuilder, baseURL: string): (r: QuoteApiBuilder)
    ensures BuildAPI(r).baseURL == baseURL
    ensures BuildAPI(r).methodName == BuildAPI(b).methodName && BuildAPI(r).format == BuildAPI(b).format
    ensures BuildAPI(r).language == BuildAPI(b).language
  {
    b.(api := b.api.(baseURL := baseURL))
  }

  function WithMethod(b: QuoteApiBuilder, methodName: string): (r: QuoteApiBuilder)
    ensures BuildAPI(r).methodName == methodName
    ensures BuildAPI(r).baseURL == BuildAPI(b).baseURL && BuildAPI(r).format == BuildAPI(b).format
    ensures BuildAPI(r).language == BuildAPI(b).language
  {
    b.(api := b.api.(methodName := methodName))
  }

  function WithFormat(b: QuoteApiBuilder, format: string): (r: QuoteApiBuilder)
    ensures BuildAPI(r).format == format
    ensures BuildAPI(r).baseURL == BuildAPI(b).baseURL && BuildAPI(r).methodName == BuildAPI(b).methodName
    ensures BuildAPI(r).language == BuildAPI(b).language
  {
    b.(api := b.api.(format := format))
  }

  function WithLanguage(b: QuoteApiBuilder, language: string): (r: QuoteApiBuilder)
    ensures BuildAPI(r).language == language
    ensures BuildAPI(r).baseURL == BuildAPI(b).baseURL && BuildAPI(r).methodName == BuildAPI(b).methodName
    ensures BuildAPI(r).format == BuildAPI(b).format
  {
    b.(api := b.api.(language := language))
  }

  /** The provider as built so far. */
  function BuildAPI(b: QuoteApiBuilder): QuoteAPI
  {
    b.api
  }

  // ---------------------------------------------------------------------
  // Configuration builder

  function NewQuoteConfigBuilder(): (b: QuoteConfigBuilder)
    ensures Build(b).key == 0
  {
    QuoteConfigBuilder(QuoteConfig(0))
  }

  /** A key above the maximum is replaced by the maximum; any other value,
      zero and negatives included, is kept. */
  function WithKey(b: QuoteConfigBuilder, key: int): (r: QuoteConfigBuilder)
    ensures Build(r).key <= MaxKeyValue
    ensures key <= MaxKeyValue ==> Build(r).key == key
    ensures key > MaxKeyValue ==> Build(r).key == MaxKeyValue
  {
    b.(config := QuoteConfig(if key < MaxKeyValue then key else MaxKeyValue))
  }

  /** The configuration as set so far. */
  function Build(b: QuoteConfigBuilder): QuoteConfig
  {
    b.config
  }

  /** Only the last key set matters. */
  lemma WithKeyTwice(b: QuoteConfigBuilder, k1: int, k2: int)
    ensures WithKey(WithKey(b, k1), k2) == WithKey(b, k2)
  {
  }

  // ---------------------------------------------------------------------
  // Request URL

  /** The query parameters, in the order the source lists them: the fixed
      ones, then `key` set only when the key is positive. */
  function QueryValues(api: QuoteAPI, c: QuoteConfig): (r: Url.Values)
    ensures Url.DistinctKeys(r)
    ensures |r| == if c.key > 0 then 4 else 3
    ensures Url.Get(r, "method") == api.methodName && Url.Get(r, "lang") == api.language
    ensures Url.Get(r, "format") == api.format
    ensures Url.Get(r, "key") == if c.key > 0 then Strconv.Itoa(c.key) else ""
  {
    var fixed := [("method", [api.methodName]), ("lang", [api.language]), ("format", [api.format])];
    ThreeValues("method", "lang", "format", api.methodName, api.language, api.format, "key");
    Url.SetAbsent(fixed, "key", Strconv.Itoa(c.key));
    if c.key > 0 then Url.Set(fixed, "key", Strconv.Itoa(c.key)) else fixed
  }

  /** Proof helper: a literal map of three distinct names, read back. */
  lemma ThreeValues(a: string, b: string, c: string, x: string, y: string, z: string, k: string)
    requires a != b && b != c && a != c && k != a && k != b && k != c
    ensures var v := [(a, [x]), (b, [y]), (c, [z])];
      && Url.DistinctKeys(v) && Url.Get(v, a) == x && Url.Get(v, b) == y && Url.Get(v, c) == z
      && Url.Get(v, k) == ""
      && forall i :: 0 <= i < |v| ==> v[i].0 != k
  {
    var v := [(a, [x]), (b, [y]), (c, [z])];
    assert v[1..] == [(b, [y]), (c, [z])];
    assert v[1..][1..] == [(c, [z])];
    assert v[1..][1..][1..] == [];
    assert Url.Get(v[1..][1..], c) == z;
    assert Url.Get(v[1..], b) == y && Url.Get(v[1..], c) == z;
    assert Url.Get(v, k) == "" by {
      assert forall i :: 0 <= i < |v| ==> v[i].0 != k;
    }
  }

  /** `buildPath`: the base URL with the encoded query attached. */
  function BuildPath(api: QuoteAPI, c: QuoteConfig): string
  {
    Url.WithRawQuery(api.baseURL, Url.Encode(QueryValues(api, c)))
  }

  /** The query pairs in the order they are sent: sorted by name, with
      `key` only for a positive key. */
  function ExpectedPairs(api: QuoteAPI, c: QuoteConfig): seq<string>
  {
    [Url.Pair("format", api.format)]
      + (if c.key > 0 then [Url.Pair("key", Strconv.Itoa(c.key))] else [])
      + [Url.Pair("lang", api.language), Url.Pair("method", api.methodName)]
  }

  lemma {:induction false} PositiveKeyUnescaped(key: int)
    requires key > 0
    ensures Url.QueryEscape(Strconv.Itoa(key)) == Strconv.Itoa(key)
  {
    var s := Strconv.Itoa(key);
    assert forall i :: 0 <= i < |s| ==> Url.IsUnreserved(s[i]) by {
      assert Strconv.AllDigits(s);
    }
    Url.EscapeUnreserved(s);
  }

  /** Proof helper: how the four parameter names compare. */
  lemma KeyOrder()
    ensures Url.LessEq("format", "key") && Url.LessEq("key", "lang") && Url.LessEq("lang", "method")
    ensures Url.LessEq("format", "lang")
    ensures !Url.LessEq("lang", "format") && !Url.LessEq("lang", "key")
    ensures !Url.LessEq("method", "format") && !Url.LessEq("method", "key") && !Url.LessEq("method", "lang")
  {
  }

  /** The four parameters sort to `format`, `key`, `lang`, `method`. */
  lemma {:induction false} SortFour(f: Entry, k: Entry, l: Entry, m: Entry)
    requires f.0 == "format" && k.0 == "key" && l.0 == "lang" && m.0 == "method"
    ensures Url.SortByKey([m, l, f, k]) == [f, k, l, m]
  {
    KeyOrder();
    assert Url.SortByKey([k]) == [k] by { Url.SortCons(k, []); }
    assert Url.SortByKey([f, k]) == [f, k] by { Url.SortCons(f, [k]); Url.InsertBefore(f, [k]); }
    assert Url.SortByKey([l, f, k]) == [f, k, l] by {
      Url.SortCons(l, [f, k]);
      Url.InsertAfter(l, [f, k]);
      assert [f, k][1..] == [k];
      Url.InsertAfter(l, [k]);
      assert Url.InsertByKey(l, []) == [l];
    }
    Url.SortCons(m, [l, f, k]);
    Url.InsertAfter(m, [f, k, l]);
    assert [f, k, l][1..] == [k, l];
    Url.InsertAfter(m, [k, l]);
    assert [k, l][1..] == [l];
    Url.InsertAfter(m, [l]);
    assert Url.InsertByKey(m, []) == [m];
  }

  /** Without a key the three parameters sort to `format`, `lang`, `method`. */
  lemma {:induction false} SortThree(f: Entry, l: Entry, m: Entry)
    requires f.0 == "format" && l.0 == "lang" && m.0 == "method"
    ensures Url.SortByKey([m, l, f]) == [f, l, m]
  {
    KeyOrder();
    assert Url.SortByKey([f]) == [f] by { Url.SortCons(f, []); }
    assert Url.SortByKey([l, f]) == [f, l] by {
      Url.SortCons(l, [f]);
      Url.InsertAfter(l, [f]);
      assert Url.InsertByKey(l, []) == [l];
    }
    Url.SortCons(m, [l, f]);
    Url.InsertAfter(m, [f, l]);
    assert [f, l][1..] == [l];
    Url.InsertAfter(m, [l]);
    assert Url.InsertByKey(m, []) == [m];
  }

  type Entry = (string, seq<string>)

  /** Sorting the query entries puts them in name order, whichever are present. */
  lemma {:induction false} SortedQueryValues(api: QuoteAPI, c: QuoteConfig)
    ensures var f, k, l, m := ("format", [api.format]), ("key", [Strconv.Itoa(c.key)]),
                              ("lang", [api.language]), ("method", [api.methodName]);
      Url.SortByKey(QueryValues(api, c)) == if c.key > 0 then [f, k, l, m] else [f, l, m]
  {
    var f, k, l, m := ("format", [api.format]), ("key", [Strconv.Itoa(c.key)]),
                      ("lang", [api.language]), ("method", [api.methodName]);
    if c.key > 0 {
      assert Url.Set([f], "key", Strconv.Itoa(c.key)) == [f, k] by {
        assert [f][1..] == [];
      }
      assert Url.Set([l, f], "key", Strconv.Itoa(c.key)) == [l, f, k] by {
        assert [l, f][1..] == [f];
      }
      assert QueryValues(api, c) == [m, l, f, k] by {
        assert [m, l, f][1..] == [l, f];
      }
      SortFour(f, k, l, m);
    } else {
      SortThree(f, l, m);
    }
  }

  /** The encoded query consists of exactly the expected pairs, in name order. */
  lemma {:induction false} QueryPairs(api: QuoteAPI, c: QuoteConfig)
    ensures Url.Pairs(Url.SortByKey(QueryValues(api, c))) == ExpectedPairs(api, c)
  {
    SortedQueryValues(api, c);
    var f, k, l, m := ("format", [api.format]), ("key", [Strconv.Itoa(c.key)]),
                      ("lang", [api.language]), ("method", [api.methodName]);
    if c.key > 0 {
      PairsOfFour(f, k, l, m);
      PositiveKeyPairs(api, c);
    } else {
      PairsOfThree(f, l, m);
      NoKeyPairs(api, c);
    }
  }

  lemma PairsOfThree(f: Entry, l: Entry, m: Entry)
    requires |f.1| == 1 && |l.1| == 1 && |m.1| == 1
    ensures Url.Pairs([f, l, m]) == [Url.Pair(f.0, f.1[0]), Url.Pair(l.0, l.1[0]), Url.Pair(m.0, m.1[0])]
  {
    assert Url.Pairs([]) == [];
    Url.PairsSingle(m, []);
    assert [m] + [] == [m];
    Url.PairsSingle(l, [m]);
    assert [l] + [m] == [l, m];
    Url.PairsSingle(f, [l, m]);
    assert [f] + [l, m] == [f, l, m];
  }

  lemma PairsOfFour(f: Entry, k: Entry, l: Entry, m: Entry)
    requires |f.1| == 1 && |k.1| == 1 && |l.1| == 1 && |m.1| == 1
    ensures Url.Pairs([f, k, l, m]) ==
      [Url.Pair(f.0, f.1[0]), Url.Pair(k.0, k.1[0]), Url.Pair(l.0, l.1[0]), Url.Pair(m.0, m.1[0])]
  {
    PairsOfThree(k, l, m);
    var v := [f, k, l, m];
    assert v[0] == f && v[1..] == [k, l, m];
    Url.ValuePairsSingle(f.0, f.1);
    assert Url.Pairs(v) == [Url.Pair(f.0, f.1[0])] + Url.Pairs([k, l, m]);
  }

  /** The key is written in plain decimal: `key=` followed by its digits. */
  lemma KeyPair(key: int)
    requires key > 0
    ensures Url.Pair("key", Strconv.Itoa(key)) == "key=" + Strconv.Itoa(key)
  {
    PositiveKeyUnescaped(key);
    Url.PairOfPlainKey("key", Strconv.Itoa(key));
  }

  /** The URL is the base URL, `?`, and the expected pairs joined by `&`:
      `format`, then `key` only for a positive key, then `lang` and `method`. */
  lemma {:induction false} BuildPathQuery(api: QuoteAPI, c: QuoteConfig)
    ensures BuildPath(api, c) == api.baseURL + "?" + Strings.Join(ExpectedPairs(api, c), '&')
  {
    QueryPairs(api, c);
    var e := ExpectedPairs(api, c);
    var q := Url.Encode(QueryValues(api, c));
    assert q == Strings.Join(e, '&');
    assert q != "" by {
      assert |e| >= 2;
      assert q == e[0] + ['&'] + Strings.Join(e[1..], '&');
    }
  }

  /** Splitting the query on `&` gives four parameters when the key is
      positive and exactly `format`, `lang` and `method` otherwise. */
  lemma {:induction false} QueryParameters(api: QuoteAPI, c: QuoteConfig)
    ensures var q := Url.Encode(QueryValues(api, c));
      && Strings.Split(q, '&') == ExpectedPairs(api, c)
      && |Strings.Split(q, '&')| == (if c.key > 0 then 4 else 3)
  {
    QueryPairs(api, c);
    Url.EncodeSplit(QueryValues(api, c));
  }

  // ---------------------------------------------------------------------
  // Provider call

  const QuoteErrorPrefix: string := "failed to get image from random quote API after retries: "

  /** `GetRandomQuote`: fetch the URL built from the configuration. The
      fetch (HTTP GET, status check, JSON decode of the quote text, all under
      the retry policy) is an opaque function of the URL. The quote text is
      passed through; a failure becomes a flat error with the provider's
      prefix. */
  function GetRandomQuote(api: QuoteAPI, b: QuoteConfigBuilder, fetch: string -> Result<string, Errors.Error>)
    : (r: Result<string, Errors.Error>)
    ensures var outcome := fetch(BuildPath(api, Build(b)));
      && (outcome.Ok? <==> r.Ok?)
      && (outcome.Ok? ==> r.value == outcome.value)
      && (outcome.Err? ==> Errors.Message(r.error) == QuoteErrorPrefix + Errors.Message(outcome.error)
                           && Errors.Unwrap(r.error) == None)
  {
    match fetch(BuildPath(api, Build(b)))
    case Ok(text) => Ok(text)
    case Err(e) => Err(Errors.Errorf(QuoteErrorPrefix, e))
  }

  // ---------------------------------------------------------------------
  // The repository's examples

  /** A pair whose key and value need no escaping is written as-is. */
  lemma PlainPair(key: string, value: string, r: string)
    requires forall i :: 0 <= i < |key| ==> Url.IsUnreserved(key[i])
    requires forall i :: 0 <= i < |value| ==> Url.IsUnreserved(value[i])
    requires r == key + "=" + value
    ensures Url.Pair(key, value) == r
  {
    Url.EscapeUnreserved(key);
    Url.EscapeUnreserved(value);
  }

  /** With a positive key the expected pairs are exactly four. */
  lemma PositiveKeyPairs(api: QuoteAPI, c: QuoteConfig)
    requires c.key > 0
    ensures ExpectedPairs(api, c) == [Url.Pair("format", api.format), Url.Pair("key", Strconv.Itoa(c.key)),
                                      Url.Pair("lang", api.language), Url.Pair("method", api.methodName)]
  {
    ConcatFour(Url.Pair("format", api.format), Url.Pair("key", Strconv.Itoa(c.key)),
               Url.Pair("lang", api.language), Url.Pair("method", api.methodName));
  }

  /** Without a positive key the expected pairs are exactly three. */
  lemma NoKeyPairs(api: QuoteAPI, c: QuoteConfig)
    requires c.key <= 0
    ensures ExpectedPairs(api, c) == [Url.Pair("format", api.format),
                                      Url.Pair("lang", api.language), Url.Pair("method", api.methodName)]
  {
    ConcatThree(Url.Pair("format", api.format), Url.Pair("lang", api.language), Url.Pair("method", api.methodName));
  }

  /** Proof helper: the concatenation `ExpectedPairs` builds, over plain texts. */
  lemma ConcatFour(a: string, b: string, c: string, d: string)
    ensures [a] + [b] + [c, d] == [a, b, c, d]
  {
  }

  /** Proof helper: the same without the key pair. */
  lemma ConcatThree(a: string, c: string, d: string)
    ensures [a] + [] + [c, d] == [a, c, d]
  {
  }

  lemma FormatPair() ensures Url.Pair("format", "json") == "format=json" { PlainPair("format", "json", "format=json"); }
  lemma KeyPair100() ensures Url.Pair("key", "100") == "key=100" { PlainPair("key", "100", "key=100"); }
  lemma LangPair() ensures Url.Pair("lang", "en") == "lang=en" { PlainPair("lang", "en", "lang=en"); }
  lemma MethodPair() ensures Url.Pair("method", "getQuote") == "method=getQuote" { PlainPair("method", "getQuote", "method=getQuote"); }

  /** Proof helper: the decimal text of 100. */
  lemma Itoa100() ensures Strconv.Itoa(100) == "100"
  {
    assert Strconv.NatDigits(10) == "10" by { assert Strconv.NatDigits(1) == "1"; }
  }

  /** The default API with key 100 sends the four pairs in sorted order. */
  lemma DefaultPairsWithKey()
    ensures ExpectedPairs(BuildAPI(NewQuoteApiBuilder()), Build(WithKey(NewQuoteConfigBuilder(), 100)))
            == ["format=json", "key=100", "lang=en", "method=getQuote"]
  {
    PositiveKeyPairs(BuildAPI(NewQuoteApiBuilder()), Build(WithKey(NewQuoteConfigBuilder(), 100)));
    Itoa100();
    FormatPair();
    KeyPair100();
    LangPair();
    MethodPair();
  }

  lemma JoinFour(a: string, b: string, c: string, d: string)
    ensures Strings.Join([a, b, c, d], '&') == a + "&" + b + "&" + c + "&" + d
  {
    assert [a, b, c, d][1..] == [b, c, d];
    assert [b, c, d][1..] == [c, d];
    assert [c, d][1..] == [d];
    assert Strings.Join([d], '&') == d;
    assert Strings.Join([c, d], '&') == c + "&" + d;
    assert Strings.Join([b, c, d], '&') == b + "&" + (c + "&" + d);
  }

  lemma PathOfDefaultPairs(api: QuoteAPI, c: QuoteConfig)
    requires ExpectedPairs(api, c) == ["format=json", "key=100", "lang=en", "method=getQuote"]
    ensures BuildPath(api, c) == api.baseURL + "?" + ("format=json" + "&" + "key=100" + "&" + "lang=en" + "&" + "method=getQuote")
  {
    BuildPathQuery(api, c);
    JoinFour("format=json", "key=100", "lang=en", "method=getQuote");
  }

  /** The default API with key 100 requests the forismatic URL with the
      query in sorted order. */
  lemma DefaultPathWithKey()
    ensures BuildPath(BuildAPI(NewQuoteApiBuilder()), Build(WithKey(NewQuoteConfigBuilder(), 100)))
            == DefaultBaseUrl + "?" + ("format=json" + "&" + "key=100" + "&" + "lang=en" + "&" + "method=getQuote")
  {
    DefaultPairsWithKey();
    PathOfDefaultPairs(BuildAPI(NewQuoteApiBuilder()), Build(WithKey(NewQuoteConfigBuilder(), 100)));
  }

  lemma ApiBuilderSetters()
    ensures var b := WithLanguage(WithFormat(WithMethod(WithBaseURL(NewQuoteApiBuilder(), "test"), "get"), "xml"), "ru");
      BuildAPI(b) == QuoteAPI("test", "get", "xml", "ru")
  {
  }
}
