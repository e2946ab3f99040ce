// The market routes: simulated quotes for a list of codes, the name search
// over the built-in stock table, and the simulated 30-day history.

module MarketRoutes {
  import opened Util

  /** A reply: the payload, or the HTTP error status. */
  datatype Reply<T> = Ok(value: T) | Error(status: int)

  const BadRequest := 400
  const NotFound := 404

  /** The `Math.random()` stream: the `k`-th value drawn. */
  type Random = nat -> real

  /** What `Math.random()` promises: every draw lies in [0, 1). */
  ghost predicate Unit(rand: Random)
  {
    forall k: nat :: 0.0 <= rand(k) < 1.0
  }

  // ---------------------------------------------------------------------
  // Quotes
  // ---------------------------------------------------------------------

  datatype Quote = Quote(
    code: string, name: string, price: real, change: real, changeRate: real,
    volume: int, turnover: int, high: real, low: real, open: real, prevClose: real,
    timestamp: int)

  /** The simulated name of a code. */
  const NamePrefix := "股票"

  /** Draws per quote, in the order the fields are filled. */
  const QuoteDraws := 9

  /** The `i`-th quote, made from draws `9·i` to `9·i + 8`. */
  function QuoteAt(code: string, i: nat, rand: Random, now: int): Quote
  {
    var base := QuoteDraws * i;
    Quote(code, NamePrefix + code,
          rand(base) * 100.0 + 10.0,
          (rand(base + 1) - 0.5) * 10.0,
          (rand(base + 2) - 0.5) * 10.0,
          (rand(base + 3) * 1000000.0).Floor,
          (rand(base + 4) * 100000000.0).Floor,
          rand(base + 5) * 100.0 + 10.0,
          rand(base + 6) * 100.0 + 10.0,
          rand(base + 7) * 100.0 + 10.0,
          rand(base + 8) * 100.0 + 10.0,
          now)
  }

  /** `codes` is `None` when missing or not an array; an empty array is
    * accepted. */
  function Quotes(codes: Option<seq<string>>, rand: Random, now: int): Reply<seq<Quote>>
  {
    if codes.None? then Error(BadRequest)
    else Ok(seq(|codes.value|, i requires 0 <= i < |codes.value| => QuoteAt(codes.value[i], i, rand, now)))
  }

  /** One quote per code, in the same order, named after its code. */
  lemma QuotesShape(codes: Option<seq<string>>, rand: Random, now: int)
    ensures Quotes(codes, rand, now).Error? <==> codes.None?
    ensures Quotes(codes, rand, now) == Error(BadRequest) <==> codes.None?
    ensures codes.Some? ==>
      var qs := Quotes(codes, rand, now).value;
      |qs| == |codes.value|
      && forall i :: 0 <= i < |qs| ==>
        qs[i].code == codes.value[i] && qs[i].name == NamePrefix + codes.value[i] && qs[i].timestamp == now
  {
  }

  /** With draws in [0, 1), prices lie in [10, 110), changes in [−5, 5),
    * and volumes in [0, 1000000). */
  lemma QuoteRanges(code: string, i: nat, rand: Random, now: int)
    requires Unit(rand)
    ensures var q := QuoteAt(code, i, rand, now);
      10.0 <= q.price < 110.0 && 10.0 <= q.high < 110.0 && 10.0 <= q.low < 110.0
      && 10.0 <= q.open < 110.0 && 10.0 <= q.prevClose < 110.0
      && -5.0 <= q.change < 5.0 && -5.0 <= q.changeRate < 5.0
      && 0 <= q.volume < 1000000 && 0 <= q.turnover < 100000000
  {
    var base := QuoteDraws * i;
    assert 0.0 <= rand(base) < 1.0 && 0.0 <= rand(base + 1) < 1.0 && 0.0 <= rand(base + 2) < 1.0;
    assert 0.0 <= rand(base + 3) < 1.0 && 0.0 <= rand(base + 4) < 1.0 && 0.0 <= rand(base + 5) < 1.0;
    assert 0.0 <= rand(base + 6) < 1.0 && 0.0 <= rand(base + 7) < 1.0 && 0.0 <= rand(base + 8) < 1.0;
  }

  // ---------------------------------------------------------------------
  // Search
  // ---------------------------------------------------------------------

  datatype Stock = Stock(code: string, name: string, price: real)

  /** The built-in table, keyed by name, in its declaration order. */
  const StockTable: seq<(string, Stock)> := [
    ("平安银行", Stock("000001", "平安银行", 11.20)),
    ("万科A", Stock("000002", "万科A", 8.50)),
    ("国农科技", Stock("000004", "国农科技", 12.30)),
    ("兆易创新", Stock("603986", "兆易创新", 243.00)),
    ("贵州茅台", Stock("600519", "贵州茅台", 1850.00)),
    ("五粮液", Stock("000858", "五粮液", 156.80)),
    ("比亚迪", Stock("002594", "比亚迪", 268.50)),
    ("宁德时代", Stock("300750", "宁德时代", 432.60)),
    ("招商银行", Stock("600036", "招商银行", 41.20)),
    ("工商银行", Stock("601398", "工商银行", 5.80))
  ]

  /** The stocks of `table` whose key contains `query`, in order. */
  function Matching(table: seq<(string, Stock)>, query: string): (r: seq<Stock>)
    ensures |r| <= |table|
  {
    if |table| == 0 then []
    else
      var last := table[|table| - 1];
      Matching(table[..|table| - 1], query) + If(Includes(last.0, query), last.1)
  }

  /** `name` is `None` when missing or not a string. */
  function Search(name: Option<string>): Reply<seq<Stock>>
  {
    if name.None? || name.value == "" then Error(BadRequest)
    else
      var found := Matching(StockTable, name.value);
      if |found| == 0 then Error(NotFound) else Ok(found)
  }

  /** Exactly the stocks whose key contains the query are returned. */
  lemma {:induction false} MatchingMeaning(table: seq<(string, Stock)>, query: string)
    ensures forall s :: s in Matching(table, query) <==> exists i :: 0 <= i < |table| && table[i].1 == s && Includes(table[i].0, query)
  {
    if |table| > 0 {
      var init := table[..|table| - 1];
      MatchingMeaning(init, query);
      assert forall i :: 0 <= i < |init| ==> init[i] == table[i];
    }
  }

  /** A missing or empty name is 400; otherwise the reply lists exactly the
    * table entries whose name contains it, and is 404 when there are
    * none. */
  lemma SearchRules(name: Option<string>)
    ensures Search(name) == Error(BadRequest) <==> name.None? || name.value == ""
    ensures name.Some? && name.value != "" ==>
      (Search(name) == Error(NotFound) <==> forall i :: 0 <= i < |StockTable| ==> !Includes(StockTable[i].0, name.value))
    ensures Search(name).Ok? ==>
      forall s :: s in Search(name).value <==>
        exists i :: 0 <= i < |StockTable| && StockTable[i].1 == s && Includes(StockTable[i].0, name.value)
  {
    if name.Some? && name.value != "" {
      MatchingMeaning(StockTable, name.value);
      var found := Matching(StockTable, name.value);
      forall i | 0 <= i < |StockTable| && Includes(StockTable[i].0, name.value)
        ensures StockTable[i].1 in found
      {
      }
      if |found| > 0 {
        assert found[0] in found;
      }
    }
  }

  // ---------------------------------------------------------------------
  // History
  // ---------------------------------------------------------------------

  const Days := 30
  const DayMillis := 86400000

  datatype Point = Point(time: int, open: real, high: real, low: real, close: real, volume: int)

  /** The point `i` days back, drawn from draws `5·i` to `5·i + 4`. */
  function PointAt(i: nat, rand: Random, now: int): Point
  {
    var base := 5 * i;
    Point(now - i * DayMillis,
          rand(base) * 100.0 + 10.0, rand(base + 1) * 100.0 + 10.0,
          rand(base + 2) * 100.0 + 10.0, rand(base + 3) * 100.0 + 10.0,
          (rand(base + 4) * 1000000.0).Floor)
  }

  /** The points for 0 … 29 days back, reversed. */
  function History(rand: Random, now: int): seq<Point>
  {
    var built := seq(Days, i requires 0 <= i < Days => PointAt(i, rand, now));
    seq(Days, j requires 0 <= j < Days => built[Days - 1 - j])
  }

  /** Thirty days, oldest first, one day apart, ending today. */
  lemma HistoryOrder(rand: Random, now: int)
    ensures |History(rand, now)| == Days
    ensures forall j :: 0 <= j < Days - 1 ==> History(rand, now)[j + 1].time == History(rand, now)[j].time + DayMillis
    ensures forall j, k :: 0 <= j < k < Days ==> History(rand, now)[j].time < History(rand, now)[k].time
    ensures History(rand, now)[0].time == now - (Days - 1) * DayMillis
    ensures History(rand, now)[Days - 1].time == now
  {
    var h := History(rand, now);
    assert forall j :: 0 <= j < Days ==> h[j].time == now - (Days - 1 - j) * DayMillis;
  }
}
