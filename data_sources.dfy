// Free data-source client: the realtime quote request, the line-oriented
// parser for the quote feed's `var hq_str_<code>="<fields>"` format, and
// the field mapping of the fundamentals feed.

module DataSources {
  import opened Util

  // ---------------------------------------------------------------------
  // Splitting and joining on one separator character
  // ---------------------------------------------------------------------

  /** `s.split(c)`: the pieces between separators, at least one (the empty
    * string gives one empty piece). */
  function Split(s: string, c: char): (r: seq<string>)
    ensures |r| >= 1
    decreases |s|
  {
    if |s| == 0 then [""]
    else
      var r := Split(s[1..], c);
      if s[0] == c then [""] + r else [[s[0]] + r[0]] + r[1..]
  }

  /** `parts.join(c)`: empty for no parts. */
  function Join(parts: seq<string>, c: char): string
  {
    if |parts| == 0 then ""
    else if |parts| == 1 then parts[0]
    else parts[0] + [c] + Join(parts[1..], c)
  }

  /** Joining the pieces puts the separators back. */
  lemma {:induction false} JoinSplit(s: string, c: char)
    ensures Join(Split(s, c), c) == s
    decreases |s|
  {
    if |s| > 0 {
      var r := Split(s[1..], c);
      JoinSplit(s[1..], c);
      if s[0] == c {
        assert Split(s, c) == [""] + r;
        assert ([""] + r)[1..] == r;
      } else if |r| > 1 {
        assert Split(s, c)[1..] == r[1..];
        assert Join(r, c) == r[0] + [c] + Join(r[1..], c);
      }
    }
  }

  /** A piece free of the separator followed by a separator splits off as
    * one piece. */
  lemma {:induction false} SplitPrefix(p: string, rest: string, c: char)
    requires c !in p
    ensures Split(p + [c] + rest, c) == [p] + Split(rest, c)
    decreases |p|
  {
    var s := p + [c] + rest;
    if |p| == 0 {
      assert s[1..] == rest;
    } else {
      assert s[1..] == p[1..] + [c] + rest;
      SplitPrefix(p[1..], rest, c);
      assert [p[0]] + p[1..] == p;
    }
  }

  /** A string free of the separator is a single piece. */
  lemma {:induction false} SplitNone(p: string, c: char)
    requires c !in p
    ensures Split(p, c) == [p]
    decreases |p|
  {
    if |p| > 0 {
      SplitNone(p[1..], c);
      assert [p[0]] + p[1..] == p;
    }
  }

  /** Splitting a join of separator-free pieces gives the pieces back. */
  lemma {:induction false} SplitJoin(parts: seq<string>, c: char)
    requires |parts| >= 1
    requires forall i :: 0 <= i < |parts| ==> c !in parts[i]
    ensures Split(Join(parts, c), c) == parts
  {
    if |parts| == 1 {
      SplitNone(parts[0], c);
    } else {
      SplitJoin(parts[1..], c);
      SplitPrefix(parts[0], Join(parts[1..], c), c);
      assert [parts[0]] + parts[1..] == parts;
    }
  }

  /** A character in none of the pieces, other than the separator, is not
    * in their join either. */
  lemma {:induction false} JoinAvoids(parts: seq<string>, c: char, d: char)
    requires c != d
    requires forall i :: 0 <= i < |parts| ==> d !in parts[i]
    ensures d !in Join(parts, c)
  {
    if |parts| > 1 {
      JoinAvoids(parts[1..], c, d);
    }
  }

  // ---------------------------------------------------------------------
  // Matching `var hq_str_(\w+)="([^"]+)"`
  // ---------------------------------------------------------------------

  const QuotePrefix := "var hq_str_"

  /** `\w`: ASCII letters, digits and the underscore. */
  predicate IsWordChar(ch: char)
  {
    ('a' <= ch <= 'z') || ('A' <= ch <= 'Z') || ('0' <= ch <= '9') || ch == '_'
  }

  predicate IsNotQuote(ch: char)
  {
    ch != '"'
  }

  /** The length of the longest prefix of `s` whose characters all satisfy
    * `p`: what a greedy `p+` or `p*` consumes. */
  function RunLength(s: string, p: char -> bool): (n: nat)
    ensures n <= |s|
    ensures forall i :: 0 <= i < n ==> p(s[i])
    ensures n < |s| ==> !p(s[n])
  {
    if |s| == 0 || !p(s[0]) then 0 else 1 + RunLength(s[1..], p)
  }

  /** The two capture groups. */
  datatype SinaMatch = SinaMatch(code: string, payload: string)

  /** The match starting exactly at offset `i`. Both greedy runs are
    * followed by a character outside their class (`=` and `"`), so
    * backtracking never finds another match at the same offset. */
  function MatchAt(line: string, i: nat): (r: Option<SinaMatch>)
    requires i <= |line|
    ensures r.Some? ==> |r.value.code| > 0 && |r.value.payload| > 0 && '"' !in r.value.payload
  {
    var t := line[i..];
    if QuotePrefix <= t then MatchCode(t[|QuotePrefix|..]) else None
  }

  /** `(\w+)="([^"]+)"` at the start of `rest`. */
  function MatchCode(rest: string): (r: Option<SinaMatch>)
    ensures r.Some? ==> |r.value.code| > 0 && |r.value.payload| > 0 && '"' !in r.value.payload
  {
    var k := RunLength(rest, IsWordChar);
    if k == 0 || !("=\"" <= rest[k..]) then None
    else
      var payload := MatchPayload(rest[k + 2..]);
      if payload.None? then None else Some(SinaMatch(rest[..k], payload.value))
  }

  /** `([^"]+)"` at the start of `pay`. */
  function MatchPayload(pay: string): (r: Option<string>)
    ensures r.Some? ==> |r.value| > 0 && '"' !in r.value
  {
    var m := RunLength(pay, IsNotQuote);
    if m == 0 || m == |pay| then None
    else
      assert '"' !in pay[..m] by {
        forall j | 0 <= j < m ensures pay[..m][j] != '"' { assert IsNotQuote(pay[j]); }
      }
      Some(pay[..m])
  }

  /** The leftmost match at or after offset `i`. */
  function FirstMatch(line: string, i: nat): (r: Option<SinaMatch>)
    requires i <= |line|
    decreases |line| - i
  {
    if i == |line| then None
    else
      var here := MatchAt(line, i);
      if here.Some? then here else FirstMatch(line, i + 1)
  }

  /** A line with a match contains the marker the parser tests first, so
    * that test never rejects a matching line. */
  lemma {:induction false} FirstMatchIncludes(line: string, i: nat)
    requires i <= |line|
    requires FirstMatch(line, i).Some?
    ensures Includes(line[i..], QuotePrefix)
    decreases |line| - i
  {
    if MatchAt(line, i).None? {
      FirstMatchIncludes(line, i + 1);
      assert line[i..][1..] == line[i + 1..];
    }
  }

  // ---------------------------------------------------------------------
  // Quotes
  // ---------------------------------------------------------------------

  /** A parsed quote. `num` and `whole` stand for `parseFloat` and
    * `parseInt`; the change rate is `None` where the source's division by
    * the previous close yields NaN or Infinity. */
  datatype Quote = Quote(
    code: string, name: string, open: real, close: real, high: real, low: real,
    volume: int, amount: real, change: real, changeRate: Option<real>)

  const MinFields := 32

  /** Field 0 is the name, 1/3/4/5 open/close/high/low, 8 the volume and 9
    * the amount; the change is field 4 minus field 2. */
  function QuoteOf(code: string, fields: seq<string>, num: string -> real, whole: string -> int): (q: Quote)
    requires |fields| >= MinFields
    ensures q.code == code && q.name == fields[0]
    ensures q.high - q.change == num(fields[2])
    ensures q.changeRate.Some? <==> num(fields[2]) != 0.0
  {
    var change := num(fields[4]) - num(fields[2]);
    Quote(code, fields[0], num(fields[1]), num(fields[3]), num(fields[4]), num(fields[5]),
      whole(fields[8]), num(fields[9]), change,
      if num(fields[2]) == 0.0 then None else Some(Round2(change / num(fields[2]) * 100.0)))
  }

  /** The quote a single line yields, if any. */
  function SinaQuoteOf(line: string, num: string -> real, whole: string -> int): Option<Quote>
  {
    if !Includes(line, QuotePrefix) then None
    else
      var m := FirstMatch(line, 0);
      if m.None? then None
      else
        var fields := Split(m.value.payload, ',');
        if |fields| < MinFields then None
        else Some(QuoteOf(m.value.code, fields, num, whole))
  }

  /** The quotes of all lines, in line order. */
  function SinaQuotes(lines: seq<string>, num: string -> real, whole: string -> int): seq<Quote>
  {
    if |lines| == 0 then []
    else
      var q := SinaQuoteOf(lines[|lines| - 1], num, whole);
      SinaQuotes(lines[..|lines| - 1], num, whole) + (if q.Some? then [q.value] else [])
  }

  method ParseSinaData(data: string, num: string -> real, whole: string -> int) returns (quotes: seq<Quote>)
    ensures quotes == SinaQuotes(Split(data, '\n'), num, whole)
  {
    quotes := [];
    var lines := Split(data, '\n');
    var i := 0;
    while i < |lines|
      invariant 0 <= i <= |lines|
      invariant quotes == SinaQuotes(lines[..i], num, whole)
    {
      assert lines[..i + 1][..i] == lines[..i];
      var line := lines[i];
      if Includes(line, QuotePrefix) {
        var m := FirstMatch(line, 0);
        if m.Some? {
          var fields := Split(m.value.payload, ',');
          if |fields| >= MinFields {
            quotes := quotes + [QuoteOf(m.value.code, fields, num, whole)];
          }
        }
      }
      i := i + 1;
    }
    assert lines[..|lines|] == lines;
  }

  /** At most one quote per line, and exactly one per line iff every line
    * yields one. */
  lemma {:induction false} SinaQuotesCount(lines: seq<string>, num: string -> real, whole: string -> int)
    ensures |SinaQuotes(lines, num, whole)| <= |lines|
    ensures |SinaQuotes(lines, num, whole)| == |lines| <==> forall i :: 0 <= i < |lines| ==> SinaQuoteOf(lines[i], num, whole).Some?
  {
    if |lines| > 0 {
      var init := lines[..|lines| - 1];
      SinaQuotesCount(init, num, whole);
      assert forall i :: 0 <= i < |init| ==> lines[i] == init[i];
    }
  }

  /** Every quote is the one some line yields. */
  lemma {:induction false} SinaQuotesOrigin(lines: seq<string>, num: string -> real, whole: string -> int)
    ensures forall q :: q in SinaQuotes(lines, num, whole) ==> exists i :: 0 <= i < |lines| && SinaQuoteOf(lines[i], num, whole) == Some(q)
  {
    if |lines| > 0 {
      var init := lines[..|lines| - 1];
      SinaQuotesOrigin(init, num, whole);
      forall q | q in SinaQuotes(lines, num, whole)
        ensures exists i :: 0 <= i < |lines| && SinaQuoteOf(lines[i], num, whole) == Some(q)
      {
        if q in SinaQuotes(init, num, whole) {
          var i :| 0 <= i < |init| && SinaQuoteOf(init[i], num, whole) == Some(q);
          assert lines[i] == init[i];
        }
      }
    }
  }

  /** The greedy run over `a + b` stops exactly at `b` when every character
    * of `a` is in the class and the first of `b` is not. */
  lemma RunLengthExact(a: string, b: string, p: char -> bool)
    requires forall i :: 0 <= i < |a| ==> p(a[i])
    requires |b| > 0 && !p(b[0])
    ensures RunLength(a + b, p) == |a|
  {
    assert forall i :: 0 <= i < |a| ==> (a + b)[i] == a[i];
    assert (a + b)[|a|] == b[0];
  }

  /** A quote-free payload before the closing quote is captured whole. */
  lemma MatchPayloadFormatted(payload: string, tail: string)
    requires |payload| > 0 && '"' !in payload
    ensures MatchPayload(payload + "\"" + tail) == Some(payload)
  {
    assert forall i :: 0 <= i < |payload| ==> IsNotQuote(payload[i]) by {
      forall i | 0 <= i < |payload| ensures IsNotQuote(payload[i]) {
        assert payload[i] in payload;
      }
    }
    assert payload + "\"" + tail == payload + ("\"" + tail);
    RunLengthExact(payload, "\"" + tail, IsNotQuote);
    assert (payload + "\"" + tail)[..|payload|] == payload;
  }

  /** A word-character code, `="` and a formatted payload match whole. */
  lemma MatchCodeFormatted(code: string, payload: string, tail: string)
    requires |code| > 0 && forall i :: 0 <= i < |code| ==> IsWordChar(code[i])
    requires |payload| > 0 && '"' !in payload
    ensures MatchCode(code + "=\"" + payload + "\"" + tail) == Some(SinaMatch(code, payload))
  {
    var after := "=\"" + payload + "\"" + tail;
    var rest := code + after;
    assert rest == code + "=\"" + payload + "\"" + tail;
    RunLengthExact(code, after, IsWordChar);
    assert rest[..|code|] == code && rest[|code|..] == after;
    assert after[2..] == payload + "\"" + tail;
    MatchPayloadFormatted(payload, tail);
  }

  /** A formatted line matches at its very start. */
  lemma MatchAtFormatted(code: string, payload: string, tail: string)
    requires |code| > 0 && forall i :: 0 <= i < |code| ==> IsWordChar(code[i])
    requires |payload| > 0 && '"' !in payload
    ensures MatchAt(QuotePrefix + code + "=\"" + payload + "\"" + tail, 0) == Some(SinaMatch(code, payload))
  {
    var rest := code + "=\"" + payload + "\"" + tail;
    var line := QuotePrefix + code + "=\"" + payload + "\"" + tail;
    assert line == QuotePrefix + rest;
    assert line[0..] == line && line[|QuotePrefix|..] == rest;
    MatchCodeFormatted(code, payload, tail);
  }

  /** A well-formed feed line: the prefix, a word-character code, `="`,
    * at least 32 comma-separated fields free of commas and quotes, the
    * closing quote and anything after it, parses to the quote of exactly
    * that code and those fields. */
  lemma SinaLineRoundTrip(code: string, fields: seq<string>, tail: string, num: string -> real, whole: string -> int)
    requires |code| > 0 && forall i :: 0 <= i < |code| ==> IsWordChar(code[i])
    requires |fields| >= MinFields
    requires forall i :: 0 <= i < |fields| ==> ',' !in fields[i] && '"' !in fields[i]
    ensures SinaQuoteOf(QuotePrefix + code + "=\"" + Join(fields, ',') + "\"" + tail, num, whole)
      == Some(QuoteOf(code, fields, num, whole))
  {
    var payload := Join(fields, ',');
    var line := QuotePrefix + code + "=\"" + payload + "\"" + tail;
    JoinAvoids(fields, ',', '"');
    SplitJoin(fields, ',');
    assert |payload| > 0 by {
      assert payload == fields[0] + [','] + Join(fields[1..], ',');
    }
    MatchAtFormatted(code, payload, tail);
    FirstMatchIncludes(line, 0);
    assert line[0..] == line;
  }

  // ---------------------------------------------------------------------
  // Realtime request
  // ---------------------------------------------------------------------

  const RealtimeUrlPrefix := "http://hq.sinajs.cn/list="

  /** The realtime endpoint followed by the comma-joined codes. */
  function RealtimeUrl(codes: seq<string>): string
  {
    RealtimeUrlPrefix + Join(codes, ',')
  }

  /** The codes can be read back off the request: the URL starts with the
    * endpoint and its tail splits into exactly the codes requested. */
  lemma RealtimeUrlCodes(codes: seq<string>)
    requires |codes| >= 1
    requires forall i :: 0 <= i < |codes| ==> ',' !in codes[i]
    ensures RealtimeUrlPrefix <= RealtimeUrl(codes)
    ensures Split(RealtimeUrl(codes)[|RealtimeUrlPrefix|..], ',') == codes
  {
    assert RealtimeUrl(codes)[|RealtimeUrlPrefix|..] == Join(codes, ',');
    SplitJoin(codes, ',');
  }

  /** `body` is the response text, `None` when the request fails; a
    * failure yields no quotes. */
  method GetRealtimeQuotes(codes: seq<string>, body: Option<string>, num: string -> real, whole: string -> int)
    returns (url: string, quotes: seq<Quote>)
    ensures url == RealtimeUrl(codes)
    ensures body.None? ==> quotes == []
    ensures body.Some? ==> quotes == SinaQuotes(Split(body.value, '\n'), num, whole)
  {
    url := RealtimeUrlPrefix + Join(codes, ',');
    if body.None? {
      return url, [];
    }
    quotes := ParseSinaData(body.value, num, whole);
  }

  // ---------------------------------------------------------------------
  // Fundamentals feed
  // ---------------------------------------------------------------------

  /** The fields read from `data.data`; each may be absent in the feed. */
  datatype EastmoneyStock = EastmoneyStock(
    f12: Option<string>, f14: Option<string>, f9: Option<real>, f23: Option<real>,
    f116: Option<real>, f117: Option<real>, f118: Option<real>)

  datatype Fundamentals = Fundamentals(
    code: Option<string>, name: Option<string>, pe: Option<real>, pb: Option<real>,
    marketCap: Option<real>, totalShares: Option<real>, circulatingShares: Option<real>)

  /** `null` without a `data` object, otherwise the renamed fields. */
  function ParseEastmoneyData(data: Option<EastmoneyStock>): (r: Option<Fundamentals>)
    ensures r.Some? <==> data.Some?
  {
    if data.None? then None
    else
      var s := data.value;
      Some(Fundamentals(s.f12, s.f14, s.f9, s.f23, s.f116, s.f117, s.f118))
  }

  /** The feed fields a record came from. */
  function EastmoneyFields(f: Fundamentals): EastmoneyStock
  {
    EastmoneyStock(f.code, f.name, f.pe, f.pb, f.marketCap, f.totalShares, f.circulatingShares)
  }

  /** The mapping is a renaming: nothing is lost either way. */
  lemma EastmoneyRoundTrip(f: Fundamentals, s: EastmoneyStock)
    ensures ParseEastmoneyData(Some(EastmoneyFields(f))) == Some(f)
    ensures EastmoneyFields(ParseEastmoneyData(Some(s)).value) == s
  {
  }
}
