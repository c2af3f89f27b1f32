/** The parts of Go's `net/url` that the quote provider relies on: query
    escaping (`url.QueryEscape`), the `url.Values` multimap with `Get`, `Set`
    and `Encode`, and attaching a raw query to a URL. */
module Url {
  import opened Wrappers
  import Strings

  // ---------------------------------------------------------------------
  // Query escaping

  /** Characters `QueryEscape` leaves alone (RFC 3986 unreserved). */
  predicate IsUnreserved(c: char)
  {
    ('A' <= c <= 'Z') || ('a' <= c <= 'z') || ('0' <= c <= '9')
    || c == '-' || c == '_' || c == '.' || c == '~'
  }

  /** Characters that can appear in an escaped string. */
  predicate IsEscapedChar(c: char)
  {
    IsUnreserved(c) || c == '+' || c == '%'
  }

  const HexDigits: string := "0123456789ABCDEF"

  /** The UTF-8 encoding of one Unicode scalar value. */
  function Utf8(c: char): (bs: seq<int>)
    ensures 1 <= |bs| <= 4
    ensures forall i :: 0 <= i < |bs| ==> 0 <= bs[i] < 256
    ensures c as int < 0x80 ==> bs == [c as int]
    ensures c as int >= 0x80 ==> forall i :: 0 <= i < |bs| ==> bs[i] >= 0x80
  {
    var cp := c as int;
    if cp < 0x80 then [cp]
    else if cp < 0x800 then [0xC0 + cp / 0x40, 0x80 + cp % 0x40]
    else if cp < 0x1_0000 then [0xE0 + cp / 0x1000, 0x80 + (cp / 0x40) % 0x40, 0x80 + cp % 0x40]
    else [0xF0 + cp / 0x4_0000, 0x80 + (cp / 0x1000) % 0x40, 0x80 + (cp / 0x40) % 0x40, 0x80 + cp % 0x40]
  }

  /** `%XY` with upper-case hex digits. */
  function PercentByte(b: int): (r: string)
    requires 0 <= b < 256
    ensures |r| == 3 && r[0] == '%'
    ensures forall i :: 0 <= i < |r| ==> IsEscapedChar(r[i])
  {
    ['%', HexDigits[b / 16], HexDigits[b % 16]]
  }

  function PercentBytes(bs: seq<int>): (r: string)
    requires forall i :: 0 <= i < |bs| ==> 0 <= bs[i] < 256
    ensures |r| == 3 * |bs|
    ensures forall i :: 0 <= i < |r| ==> IsEscapedChar(r[i])
  {
    if |bs| == 0 then "" else PercentByte(bs[0]) + PercentBytes(bs[1..])
  }

  /** One character as `QueryEscape` writes it: unreserved as is, a space as
      `+`, everything else as the percent-escapes of its UTF-8 bytes. */
  function EscapeChar(c: char): (r: string)
    ensures |r| >= 1
    ensures forall i :: 0 <= i < |r| ==> IsEscapedChar(r[i])
  {
    if IsUnreserved(c) then [c]
    else if c == ' ' then "+"
    else PercentBytes(Utf8(c))
  }

  /** `url.QueryEscape`. */
  function QueryEscape(s: string): (r: string)
    ensures |r| >= |s|
    ensures forall i :: 0 <= i < |r| ==> IsEscapedChar(r[i])
  {
    if |s| == 0 then "" else EscapeChar(s[0]) + QueryEscape(s[1..])
  }

  /** Escaped text never holds the query delimiters. */
  lemma EscapedHasNoDelimiters(s: string)
    ensures '&' !in QueryEscape(s) && '=' !in QueryEscape(s)
  {
  }

  /** Escaping leaves a string of unreserved characters unchanged. */
  lemma {:induction false} EscapeUnreserved(s: string)
    requires forall i :: 0 <= i < |s| ==> IsUnreserved(s[i])
    ensures QueryEscape(s) == s
  {
    if |s| > 0 {
      EscapeUnreserved(s[1..]);
      assert s == [s[0]] + s[1..];
    }
  }

  predicate IsAscii(s: string)
  {
    forall i :: 0 <= i < |s| ==> s[i] as int < 0x80
  }

  /** Go's `unhex`, which also accepts lower-case digits. */
  function HexValue(c: char): Option<int>
  {
    if '0' <= c <= '9' then Some(c as int - '0' as int)
    else if 'A' <= c <= 'F' then Some(c as int - 'A' as int + 10)
    else if 'a' <= c <= 'f' then Some(c as int - 'a' as int + 10)
    else None
  }

  lemma HexValueOfDigit(d: int)
    requires 0 <= d < 16
    ensures HexValue(HexDigits[d]) == Some(d)
  {
  }

  /** `url.QueryUnescape` restricted to results made of ASCII characters
      (a percent-escape of a byte at or above 0x80 is reported as `None`
      here rather than decoded as UTF-8). */
  function QueryUnescapeAscii(s: string): Option<string>
  {
    if |s| == 0 then Some("")
    else if s[0] == '%' then
      if |s| < 3 then None
      else
        match (HexValue(s[1]), HexValue(s[2]))
        case (Some(hi), Some(lo)) =>
          if 16 * hi + lo >= 0x80 then None
          else
            (match QueryUnescapeAscii(s[3..])
             case Some(t) => Some([(16 * hi + lo) as char] + t)
             case None => None)
        case _ => None
    else
      match QueryUnescapeAscii(s[1..])
      case Some(t) => Some([if s[0] == '+' then ' ' else s[0]] + t)
      case None => None
  }

  lemma UnescapeEscapeChar(c: char, t: string)
    requires c as int < 0x80
    ensures QueryUnescapeAscii(EscapeChar(c) + t) ==
            match QueryUnescapeAscii(t)
            case Some(u) => Some([c] + u)
            case None => None
  {
    var e := EscapeChar(c);
    if IsUnreserved(c) || c == ' ' {
      assert (e + t)[1..] == t;
    } else {
      var b := c as int;
      assert e == PercentByte(b);
      HexValueOfDigit(b / 16);
      HexValueOfDigit(b % 16);
      assert (e + t)[1] == HexDigits[b / 16];
      assert (e + t)[2] == HexDigits[b % 16];
      assert (e + t)[3..] == t;
      assert (16 * (b / 16) + b % 16) as char == c;
    }
  }

  /** Unescaping inverts escaping on ASCII text. */
  lemma {:induction false} UnescapeEscape(s: string)
    requires IsAscii(s)
    ensures QueryUnescapeAscii(QueryEscape(s)) == Some(s)
  {
    if |s| > 0 {
      UnescapeEscape(s[1..]);
      UnescapeEscapeChar(s[0], QueryEscape(s[1..]));
      assert s == [s[0]] + s[1..];
    }
  }

  // ---------------------------------------------------------------------
  // url.Values

  /** A `url.Values` map, as its entries: each key with its list of values.
      Go's map holds each key once; here that is `DistinctKeys`, which `Set`
      preserves, and every value the model encodes is built by `Set` from
      entries with distinct keys (`QuoteApi.QueryValues`). */
  type Values = seq<(string, seq<string>)>

  predicate DistinctKeys(v: Values)
  {
    forall i, j :: 0 <= i < j < |v| ==> v[i].0 != v[j].0
  }

  /** `Values.Get`: the first value stored under `key`, or "" when there is none. */
  function Get(v: Values, key: string): (r: string)
    ensures (forall i :: 0 <= i < |v| ==> v[i].0 != key) ==> r == ""
  {
    if |v| == 0 then ""
    else if v[0].0 == key then (if |v[0].1| == 0 then "" else v[0].1[0])
    else Get(v[1..], key)
  }

  /** A present key reads as the first value of its first entry. */
  lemma {:induction false} GetFirst(v: Values, key: string, i: nat)
    requires i < |v| && v[i].0 == key
    requires forall j :: 0 <= j < i ==> v[j].0 != key
    ensures Get(v, key) == if |v[i].1| == 0 then "" else v[i].1[0]
  {
    if i > 0 {
      GetFirst(v[1..], key, i - 1);
    }
  }

  /** `Values.Set`: `key` now holds exactly `[value]`; other keys are untouched. */
  function Set(v: Values, key: string, value: string): (r: Values)
    ensures DistinctKeys(v) ==> DistinctKeys(r)
    ensures Get(r, key) == value
    ensures forall k :: k != key ==> Get(r, k) == Get(v, k)
    ensures forall i :: 0 <= i < |r| ==> r[i].0 == key || r[i] in v
    ensures forall i :: 0 <= i < |v| ==> v[i].0 == key || v[i] in r
  {
    if |v| == 0 then [(key, [value])]
    else if v[0].0 == key then [(key, [value])] + v[1..]
    else [v[0]] + Set(v[1..], key, value)
  }

  /** Setting a key that is not there yet adds it at the end. */
  lemma {:induction false} SetAbsent(v: Values, key: string, value: string)
    requires forall i :: 0 <= i < |v| ==> v[i].0 != key
    ensures Set(v, key, value) == v + [(key, [value])]
  {
    if |v| > 0 {
      SetAbsent(v[1..], key, value);
      assert v == [v[0]] + v[1..];
    }
  }

  // ---------------------------------------------------------------------
  // Sorting keys

  /** Go's `<=` on strings: lexicographic on code points (which agrees with
      the byte order of their UTF-8 encodings). */
  predicate LessEq(a: string, b: string)
  {
    |a| == 0 || (|b| > 0 && (a[0] < b[0] || (a[0] == b[0] && LessEq(a[1..], b[1..]))))
  }

  lemma LessEqTotal(a: string, b: string)
    ensures LessEq(a, b) || LessEq(b, a)
  {
  }

  lemma {:induction false} LessEqTransitive(a: string, b: string, c: string)
    requires LessEq(a, b) && LessEq(b, c)
    ensures LessEq(a, c)
  {
    if |a| > 0 && a[0] == b[0] && b[0] == c[0] {
      LessEqTransitive(a[1..], b[1..], c[1..]);
    }
  }

  predicate SortedByKey(v: Values)
  {
    forall i :: 0 < i < |v| ==> LessEq(v[i - 1].0, v[i].0)
  }

  /** Insert one entry before the first entry whose key is not smaller. */
  function InsertByKey(e: (string, seq<string>), v: Values): (r: Values)
  {
    if |v| == 0 then [e]
    else if LessEq(e.0, v[0].0) then [e] + v
    else [v[0]] + InsertByKey(e, v[1..])
  }

  /** The key order `Values.Encode` writes in (it sorts the keys first). */
  function SortByKey(v: Values): (r: Values)
  {
    if |v| == 0 then [] else InsertByKey(v[0], SortByKey(v[1..]))
  }

  lemma {:induction false} InsertByKeyPermutes(e: (string, seq<string>), v: Values)
    ensures multiset(InsertByKey(e, v)) == multiset(v) + multiset{e}
    ensures |InsertByKey(e, v)| == |v| + 1
    ensures InsertByKey(e, v)[0] == e || (|v| > 0 && InsertByKey(e, v)[0] == v[0])
  {
    if |v| > 0 && !LessEq(e.0, v[0].0) {
      InsertByKeyPermutes(e, v[1..]);
      assert v == [v[0]] + v[1..];
    }
  }

  lemma {:induction false} InsertByKeySorted(e: (string, seq<string>), v: Values)
    requires SortedByKey(v)
    ensures SortedByKey(InsertByKey(e, v))
  {
    if |v| > 0 && !LessEq(e.0, v[0].0) {
      LessEqTotal(e.0, v[0].0);
      InsertByKeySorted(e, v[1..]);
      InsertByKeyPermutes(e, v[1..]);
      var r := InsertByKey(e, v);
      var t := InsertByKey(e, v[1..]);
      assert r == [v[0]] + t;
    }
  }

  /** Sorting keeps exactly the same entries and orders them by key. */
  lemma {:induction false} SortByKeyCorrect(v: Values)
    ensures multiset(SortByKey(v)) == multiset(v)
    ensures |SortByKey(v)| == |v|
    ensures SortedByKey(SortByKey(v))
  {
    if |v| > 0 {
      SortByKeyCorrect(v[1..]);
      InsertByKeyPermutes(v[0], SortByKey(v[1..]));
      InsertByKeySorted(v[0], SortByKey(v[1..]));
      assert v == [v[0]] + v[1..];
    }
  }

  lemma InsertBefore(e: (string, seq<string>), v: Values)
    requires |v| > 0 && LessEq(e.0, v[0].0)
    ensures InsertByKey(e, v) == [e] + v
  {
  }

  lemma InsertAfter(e: (string, seq<string>), v: Values)
    requires |v| > 0 && !LessEq(e.0, v[0].0)
    ensures InsertByKey(e, v) == [v[0]] + InsertByKey(e, v[1..])
  {
  }

  lemma SortCons(e: (string, seq<string>), v: Values)
    ensures SortByKey([e] + v) == InsertByKey(e, SortByKey(v))
  {
    assert ([e] + v)[1..] == v;
  }

  // ---------------------------------------------------------------------
  // Encoding

  /** One `key=value` item, both sides escaped. */
  function Pair(key: string, value: string): (r: string)
    ensures '&' !in r && '=' in r
  {
    EscapedHasNoDelimiters(key);
    EscapedHasNoDelimiters(value);
    var r := QueryEscape(key) + "=" + QueryEscape(value);
    assert r[|QueryEscape(key)|] == '=';
    r
  }

  /** A pair whose key needs no escaping is written `key=escaped value`. */
  lemma PairOfPlainKey(key: string, value: string)
    requires forall i :: 0 <= i < |key| ==> IsUnreserved(key[i])
    ensures Pair(key, value) == key + "=" + QueryEscape(value)
  {
    EscapeUnreserved(key);
  }

  /** `key=value` for every value of every entry, in entry order. */
  function Pairs(v: Values): (r: seq<string>)
    ensures forall i :: 0 <= i < |r| ==> '&' !in r[i] && '=' in r[i]
  {
    if |v| == 0 then []
    else ValuePairs(v[0].0, v[0].1) + Pairs(v[1..])
  }

  function ValuePairs(key: string, values: seq<string>): (r: seq<string>)
    ensures |r| == |values|
    ensures forall i :: 0 <= i < |r| ==> r[i] == Pair(key, values[i])
  {
    if |values| == 0 then [] else [Pair(key, values[0])] + ValuePairs(key, values[1..])
  }

  lemma ValuePairsSingle(key: string, values: seq<string>)
    requires |values| == 1
    ensures ValuePairs(key, values) == [Pair(key, values[0])]
  {
    assert values[1..] == [];
  }

  lemma PairsCons(e: (string, seq<string>), rest: Values)
    ensures Pairs([e] + rest) == ValuePairs(e.0, e.1) + Pairs(rest)
  {
    var v := [e] + rest;
    assert v[0] == e && v[1..] == rest;
  }

  /** An entry with a single value contributes one pair. */
  lemma PairsSingle(e: (string, seq<string>), rest: Values)
    requires |e.1| == 1
    ensures Pairs([e] + rest) == [Pair(e.0, e.1[0])] + Pairs(rest)
  {
    PairsCons(e, rest);
    ValuePairsSingle(e.0, e.1);
  }

  /** `Values.Encode`: the pairs of the key-sorted entries joined by `&`
      (Go writes a `&` before every pair but the first; every pair holds an
      `=`, so this is the same as joining them). */
  function Encode(v: Values): string
  {
    Strings.Join(Pairs(SortByKey(v)), '&')
  }

  /** The encoded query splits on `&` back into its pairs, in key order. */
  lemma EncodeSplit(v: Values)
    requires |Pairs(SortByKey(v))| >= 1
    ensures Strings.Split(Encode(v), '&') == Pairs(SortByKey(v))
  {
    Strings.SplitJoin(Pairs(SortByKey(v)), '&');
  }

  /** `URL.String()` after setting `RawQuery`: the `?` appears only when the
      query is non-empty. The URL it starts from is an opaque prefix without
      a query or fragment of its own. */
  function WithRawQuery(base: string, rawQuery: string): (r: string)
    ensures rawQuery == "" ==> r == base
    ensures rawQuery != "" ==> |r| == |base| + 1 + |rawQuery|
    ensures rawQuery != "" ==> r[..|base|] == base && r[|base|] == '?' && r[|base| + 1..] == rawQuery
  {
    if rawQuery == "" then base else base + "?" + rawQuery
  }
}
