// The position routes: validating and pricing a new position, its share of
// the portfolio and the rewrite of the other shares, the field-by-field
// update of a stored position, and the portfolio summary.

module PortfolioRoutes {
  import opened Util

  /** A JavaScript value as a request body carries it; `NonFinite` stands
    * for NaN and the infinities an arithmetic step can produce. */
  datatype Value = Num(real) | NonFinite | Str(string) | Bool(bool) | Null | Undefined

  /** JavaScript truthiness (a NaN is falsy). */
  predicate Truthy(v: Value)
  {
    match v
    case Num(n) => n != 0.0
    case NonFinite => false
    case Str(s) => s != ""
    case Bool(b) => b
    case Null => false
    case Undefined => false
  }

  /** The number `*` and `/` coerce a value to; `None` is a non-finite
    * result, and `num` is the string-to-number conversion. */
  function ToNumber(v: Value, num: string -> Option<real>): Option<real>
  {
    match v
    case Num(n) => Some(n)
    case NonFinite => None
    case Str(s) => num(s)
    case Bool(b) => Some(if b then 1.0 else 0.0)
    case Null => Some(0.0)
    case Undefined => None
  }

  /** Arithmetic on numbers that may have become non-finite. */
  function Mul(a: Option<real>, b: Option<real>): (r: Option<real>)
    ensures r.Some? <==> a.Some? && b.Some?
  {
    if a.Some? && b.Some? then Some(a.value * b.value) else None
  }

  function Add(a: Option<real>, b: Option<real>): (r: Option<real>)
    ensures r.Some? <==> a.Some? && b.Some?
  {
    if a.Some? && b.Some? then Some(a.value + b.value) else None
  }

  function Sub(a: Option<real>, b: Option<real>): (r: Option<real>)
    ensures r.Some? <==> a.Some? && b.Some?
  {
    if a.Some? && b.Some? then Some(a.value - b.value) else None
  }

  /** Division; a zero divisor gives NaN or an infinity. */
  function Div(a: Option<real>, b: Option<real>): (r: Option<real>)
    ensures r.Some? <==> a.Some? && b.Some? && b.value != 0.0
  {
    if a.Some? && b.Some? && b.value != 0.0 then Some(a.value / b.value) else None
  }

  function AsValue(x: Option<real>): Value
  {
    if x.Some? then Num(x.value) else NonFinite
  }

  /** A reply: the payload, or the HTTP error status. */
  datatype Reply<T> = Ok(value: T) | Error(status: int)

  const BadRequest := 400
  const NotFound := 404
  /** The cash the summary assumes is available. */
  const AvailableCash := 100000.0

  // ---------------------------------------------------------------------
  // Market value and profit
  // ---------------------------------------------------------------------

  datatype Figures = Figures(marketValue: Option<real>, profitLoss: Option<real>, profitLossRate: Option<real>)

  /** Market value = quantity · price; profit = value − quantity · cost;
    * rate = profit / (quantity · cost) · 100. */
  function FiguresOf(quantity: Option<real>, price: Option<real>, cost: Option<real>): Figures
  {
    var value := Mul(quantity, price);
    var basis := Mul(quantity, cost);
    var profit := Sub(value, basis);
    Figures(value, profit, Mul(Div(profit, basis), Some(100.0)))
  }

  lemma CancelFactor(q: real, x: real, c: real)
    requires q != 0.0 && c != 0.0
    ensures (q * x) / (q * c) == x / c
  {
    var y := x / c;
    assert x == y * c;
    assert q * x == (q * c) * y;
  }

  /** On finite inputs with a non-zero quantity and cost, the profit is the
    * quantity times the per-share gain, and the rate is the per-share gain
    * over the cost, in percent: it does not depend on the quantity. */
  lemma FiguresMeaning(q: real, p: real, c: real)
    requires q != 0.0 && c != 0.0
    ensures FiguresOf(Some(q), Some(p), Some(c))
      == Figures(Some(q * p), Some(q * (p - c)), Some((p - c) / c * 100.0))
    ensures c > 0.0 ==> (FiguresOf(Some(q), Some(p), Some(c)).profitLossRate.value > 0.0 <==> p > c)
  {
    var value := Mul(Some(q), Some(p));
    var basis := Mul(Some(q), Some(c));
    assert value.Some? && value.value == q * p;
    assert basis.Some? && basis.value == q * c;
    var profit := Sub(value, basis);
    assert q * p - q * c == q * (p - c);
    assert profit == Some(q * (p - c));
    assert q * c != 0.0;
    var ratio := Div(profit, basis);
    assert ratio == Some((q * (p - c)) / (q * c));
    CancelFactor(q, p - c, c);
    if c > 0.0 {
      assert (p - c) / c > 0.0 <==> p - c > 0.0;
    }
  }

  // ---------------------------------------------------------------------
  // Adding a position
  // ---------------------------------------------------------------------

  datatype NewPosition = NewPosition(
    stockCode: Value, stockName: Value, quantity: Value,
    costPrice: Value, currentPrice: Value, category: Value)

  predicate Complete(b: NewPosition)
  {
    Truthy(b.stockCode) && Truthy(b.stockName) && Truthy(b.quantity)
    && Truthy(b.costPrice) && Truthy(b.currentPrice) && Truthy(b.category)
  }

  /** `Math.min(Math.max(value / total * 100, 0), 100)`. */
  function PositionRatio(value: Option<real>, total: Option<real>): (r: Option<real>)
    ensures r.Some? ==> 0.0 <= r.value <= 100.0
  {
    if value.None? || total.None? then None
    else if total.value == 0.0 then
      (if value.value > 0.0 then Some(100.0) else if value.value < 0.0 then Some(0.0) else None)
    else Some(Min(Max(value.value / total.value * 100.0, 0.0), 100.0))
  }

  /** The priced new position, its ratio, and whether the other positions'
    * ratios are rewritten against `newTotal`. */
  datatype Added = Added(figures: Figures, positionRatio: Option<real>, rewritesOthers: bool, newTotal: Option<real>)

  /** `storedTotal` is the summed market value of the user's positions
    * (`None` when there are none). */
  function AddPosition(b: NewPosition, storedTotal: Option<real>, num: string -> Option<real>): Reply<Added>
  {
    if !Complete(b) then Error(BadRequest)
    else
      var f := FiguresOf(ToNumber(b.quantity, num), ToNumber(b.currentPrice, num), ToNumber(b.costPrice, num));
      var total := if storedTotal.None? then 0.0 else storedTotal.value;
      var newTotal := Add(Some(total), f.marketValue);
      Ok(Added(f, PositionRatio(f.marketValue, newTotal), total > 0.0, newTotal))
  }

  /** A stored position's market value and ratio (SQL `NULL` is `None`). */
  datatype Row = Row(marketValue: real, positionRatio: Option<real>)

  /** `market_value / total * 100` in SQL: `NULL` for a zero total. */
  function SqlShare(value: real, total: Option<real>): Option<real>
  {
    if total.Some? && total.value != 0.0 then Some(value / total.value * 100.0) else None
  }

  /** The other positions after the insert. */
  function Rewrite(rows: seq<Row>, a: Added): (r: seq<Row>)
    ensures |r| == |rows|
  {
    if !a.rewritesOthers then rows
    else seq(|rows|, i requires 0 <= i < |rows| => rows[i].(positionRatio := SqlShare(rows[i].marketValue, a.newTotal)))
  }

  function Values(rows: seq<Row>): (r: seq<real>)
    ensures |r| == |rows| && forall i :: 0 <= i < |r| ==> r[i] == rows[i].marketValue
  {
    seq(|rows|, i requires 0 <= i < |rows| => rows[i].marketValue)
  }

  /** Each part as a percentage of `total`. */
  function Shares(parts: seq<real>, total: real): (r: seq<real>)
    requires total != 0.0
    ensures |r| == |parts| && forall i :: 0 <= i < |r| ==> r[i] == parts[i] / total * 100.0
  {
    seq(|parts|, i requires 0 <= i < |parts| => parts[i] / total * 100.0)
  }

  lemma {:induction false} SharesSum(parts: seq<real>, total: real)
    requires total != 0.0
    ensures Sum(Shares(parts, total)) == Sum(parts) / total * 100.0
  {
    if |parts| > 0 {
      var init := parts[..|parts| - 1];
      SharesSum(init, total);
      assert Shares(parts, total)[..|parts| - 1] == Shares(init, total);
      var a, x := Sum(init), parts[|parts| - 1];
      assert a / total * 100.0 + x / total * 100.0 == (a + x) / total * 100.0;
    }
  }

  /** A blank field is rejected with 400; otherwise the rest of the
    * portfolio is rewritten exactly when it was worth something before. */
  lemma AddPositionRules(b: NewPosition, storedTotal: Option<real>, num: string -> Option<real>)
    ensures AddPosition(b, storedTotal, num) == Error(BadRequest) <==> !Complete(b)
    ensures Complete(b) ==>
      (AddPosition(b, storedTotal, num).value.rewritesOthers <==> storedTotal.Some? && storedTotal.value > 0.0)
    ensures Complete(b) && AddPosition(b, storedTotal, num).value.positionRatio.Some? ==>
      0.0 <= AddPosition(b, storedTotal, num).value.positionRatio.value <= 100.0
  {
  }

  /** For positive numeric inputs and an existing portfolio worth `Sum`
    * of its rows, the new position and the rewritten others share the new
    * total exactly: their ratios add up to 100. */
  lemma AddPositionShares(rows: seq<Row>, b: NewPosition, num: string -> Option<real>, q: real, p: real, c: real)
    requires Complete(b)
    requires b.quantity == Num(q) && b.currentPrice == Num(p) && b.costPrice == Num(c)
    requires q > 0.0 && p > 0.0 && Sum(Values(rows)) > 0.0
    ensures var a := AddPosition(b, Some(Sum(Values(rows))), num).value;
      var total := Sum(Values(rows)) + q * p;
      a.newTotal == Some(total)
      && a.positionRatio == Some(q * p / total * 100.0)
      && (forall i :: 0 <= i < |rows| ==> Rewrite(rows, a)[i].positionRatio == Some(rows[i].marketValue / total * 100.0))
      && Sum(Shares(Values(rows), total)) + a.positionRatio.value == 100.0
  {
    var s := Sum(Values(rows));
    var v := q * p;
    var total := s + v;
    AddedTotals(b, s, num, q, p);
    SharesSum(Values(rows), total);
    assert s / total * 100.0 + v / total * 100.0 == (s + v) / total * 100.0;
  }

  lemma AddedTotals(b: NewPosition, s: real, num: string -> Option<real>, q: real, p: real)
    requires Complete(b) && b.quantity == Num(q) && b.currentPrice == Num(p)
    requires q > 0.0 && p > 0.0 && s > 0.0
    ensures AddPosition(b, Some(s), num).value.newTotal == Some(s + q * p)
    ensures AddPosition(b, Some(s), num).value.positionRatio == Some(q * p / (s + q * p) * 100.0)
    ensures AddPosition(b, Some(s), num).value.rewritesOthers
  {
    var v := q * p;
    assert v > 0.0;
    assert ToNumber(b.quantity, num) == Some(q) && ToNumber(b.currentPrice, num) == Some(p);
    var value := Mul(Some(q), Some(p));
    assert value.Some? && value.value == v;
    DivideBelowOne(v, s + v);
  }

  lemma DivideBelowOne(v: real, total: real)
    requires 0.0 < v <= total
    ensures 0.0 < v / total * 100.0 <= 100.0
  {
    assert v / total <= 1.0;
  }

  // ---------------------------------------------------------------------
  // Updating a position
  // ---------------------------------------------------------------------

  /** A request body: its keys in order, each once, with their values. */
  type Body = seq<(string, Value)>

  /** `body[key]`, `Undefined` when the key is absent. */
  function Get(body: Body, key: string): Value
  {
    if |body| == 0 then Undefined
    else if body[0].0 == key then body[0].1
    else Get(body[1..], key)
  }

  /** `body[key] = v`: an existing key keeps its place, a new one goes
    * last. */
  function Put(body: Body, key: string, v: Value): (r: Body)
    ensures Get(r, key) == v
    ensures forall k :: k != key ==> Get(r, k) == Get(body, k)
  {
    if |body| == 0 then [(key, v)]
    else if body[0].0 == key then [(key, v)] + body[1..]
    else [body[0]] + Put(body[1..], key, v)
  }

  /** The stored position's quantity, price and cost. */
  datatype Stored = Stored(quantity: real, currentPrice: real, costPrice: real)

  /** A new price or quantity recomputes the value, profit and rate, from
    * the given fields or the stored ones, always with the stored cost. */
  predicate Reprices(body: Body)
  {
    Truthy(Get(body, "currentPrice")) || Truthy(Get(body, "quantity"))
  }

  function Either(v: Value, stored: real, num: string -> Option<real>): Option<real>
  {
    if Truthy(v) then ToNumber(v, num) else Some(stored)
  }

  function Repriced(body: Body, current: Stored, num: string -> Option<real>): Figures
  {
    FiguresOf(Either(Get(body, "quantity"), current.quantity, num),
              Either(Get(body, "currentPrice"), current.currentPrice, num),
              Some(current.costPrice))
  }

  /** The body with the three derived fields written into it. */
  function WithFigures(body: Body, f: Figures): (r: Body)
    ensures Get(r, "market_value") == AsValue(f.marketValue)
    ensures Get(r, "profit_loss") == AsValue(f.profitLoss)
    ensures Get(r, "profit_loss_rate") == AsValue(f.profitLossRate)
    ensures forall k :: k != "market_value" && k != "profit_loss" && k != "profit_loss_rate" ==> Get(r, k) == Get(body, k)
  {
    DerivedKeysDistinct();
    Put(Put(Put(body, "market_value", AsValue(f.marketValue)), "profit_loss", AsValue(f.profitLoss)),
        "profit_loss_rate", AsValue(f.profitLossRate))
  }

  function Prepared(body: Body, current: Stored, num: string -> Option<real>): Body
  {
    if Reprices(body) then WithFigures(body, Repriced(body, current, num)) else body
  }

  /** The entries whose value is defined, in order. */
  function Defined(body: Body): (r: Body)
    ensures |r| <= |body|
  {
    if |body| == 0 then []
    else Defined(body[..|body| - 1]) + If(body[|body| - 1].1 != Undefined, body[|body| - 1])
  }

  /** The `UPDATE` statement: a `key = ?` assignment per defined entry,
    * and the parameters: their values, then the position id and the user
    * id. */
  datatype Statement = Statement(assignments: seq<string>, parameters: seq<Value>)

  function Assignment(e: (string, Value)): string
  {
    e.0 + " = ?"
  }

  /** The update, given the stored position when the user owns it. */
  function Update(current: Option<Stored>, id: string, userId: string, body: Body, num: string -> Option<real>): Reply<Statement>
  {
    if current.None? then Error(NotFound)
    else
      var d := Defined(Prepared(body, current.value, num));
      if |d| == 0 then Error(BadRequest)
      else Ok(Statement(seq(|d|, i requires 0 <= i < |d| => Assignment(d[i])),
                        seq(|d|, i requires 0 <= i < |d| => d[i].1) + [Str(id), Str(userId)]))
  }

  /** `updateData.x = …` for the three derived fields. */
  method Prepare(body: Body, current: Stored, num: string -> Option<real>) returns (data: Body)
    ensures data == Prepared(body, current, num)
  {
    data := body;
    if Truthy(Get(data, "currentPrice")) || Truthy(Get(data, "quantity")) {
      var f := Repriced(body, current, num);
      data := Put(data, "market_value", AsValue(f.marketValue));
      data := Put(data, "profit_loss", AsValue(f.profitLoss));
      data := Put(data, "profit_loss_rate", AsValue(f.profitLossRate));
    }
  }

  /** The `forEach` over the keys that fills both lists. */
  method Collect(data: Body) returns (fields: seq<string>, values: seq<Value>)
    ensures |fields| == |values| == |Defined(data)|
    ensures forall i :: 0 <= i < |fields| ==> fields[i] == Assignment(Defined(data)[i]) && values[i] == Defined(data)[i].1
  {
    fields, values := [], [];
    var i := 0;
    while i < |data|
      invariant 0 <= i <= |data|
      invariant |fields| == |values| == |Defined(data[..i])|
      invariant forall k :: 0 <= k < |fields| ==>
        fields[k] == Assignment(Defined(data[..i])[k]) && values[k] == Defined(data[..i])[k].1
    {
      assert data[..i + 1][..i] == data[..i];
      assert Defined(data[..i + 1]) == Defined(data[..i]) + If(data[i].1 != Undefined, data[i]);
      if data[i].1 != Undefined {
        fields := fields + [data[i].0 + " = ?"];
        values := values + [data[i].1];
      }
      i := i + 1;
    }
    assert data[..|data|] == data;
  }

  /** The handler: write the derived fields, then collect the defined
    * keys. */
  method UpdatePosition(current: Option<Stored>, id: string, userId: string, body: Body, num: string -> Option<real>)
    returns (r: Reply<Statement>)
    ensures r == Update(current, id, userId, body, num)
  {
    if current.None? {
      return Error(NotFound);
    }
    var data := Prepare(body, current.value, num);
    var fields, values := Collect(data);
    ghost var d := Defined(data);
    assert fields == seq(|d|, i requires 0 <= i < |d| => Assignment(d[i]));
    assert values == seq(|d|, i requires 0 <= i < |d| => d[i].1);
    if |fields| == 0 {
      return Error(BadRequest);
    }
    values := values + [Str(id), Str(userId)];
    r := Ok(Statement(fields, values));
  }

  /** Exactly the defined entries are kept; none is kept only when all
    * are undefined. */
  lemma {:induction false} DefinedMeaning(body: Body)
    ensures forall e :: e in Defined(body) <==> e in body && e.1 != Undefined
    ensures |Defined(body)| == 0 <==> forall j :: 0 <= j < |body| ==> body[j].1 == Undefined
  {
    if |body| > 0 {
      var init := body[..|body| - 1];
      DefinedMeaning(init);
      assert forall j :: 0 <= j < |init| ==> init[j] == body[j];
      assert forall e :: e in body <==> e in init || e == body[|body| - 1];
    }
  }

  /** A position the user does not own is 404; an update is rejected with
    * 400 exactly when it defines no field, since repricing always defines
    * the derived ones. */
  lemma UpdateRules(current: Option<Stored>, id: string, userId: string, body: Body, num: string -> Option<real>)
    ensures Update(current, id, userId, body, num) == Error(NotFound) <==> current.None?
    ensures Update(current, id, userId, body, num) == Error(BadRequest) <==>
      current.Some? && forall j :: 0 <= j < |body| ==> body[j].1 == Undefined
  {
    if current.Some? {
      var prepared := Prepared(body, current.value, num);
      DefinedMeaning(prepared);
      DefinedMeaning(body);
      if Reprices(body) {
        GetIn(prepared, "profit_loss_rate");
        if Truthy(Get(body, "quantity")) { GetIn(body, "quantity"); } else { GetIn(body, "currentPrice"); }
      }
    }
  }

  /** A defined value is read from an entry of the body. */
  lemma {:induction false} GetIn(body: Body, key: string)
    requires Get(body, key) != Undefined
    ensures exists j :: 0 <= j < |body| && body[j] == (key, Get(body, key))
  {
    if body[0].0 != key {
      GetIn(body[1..], key);
      var j :| 0 <= j < |body[1..]| && body[1..][j] == (key, Get(body, key));
      assert body[j + 1] == body[1..][j];
    }
  }

  /** Repricing fills the three derived fields from the stored cost: with
    * a positive numeric quantity and price given and a non-zero stored
    * cost, they are the value, profit and rate of the new figures. */
  lemma UpdateReprices(body: Body, current: Stored, num: string -> Option<real>, q: real, p: real)
    requires Get(body, "quantity") == Num(q) && Get(body, "currentPrice") == Num(p)
    requires q > 0.0 && p > 0.0 && current.costPrice != 0.0
    ensures var prepared := Prepared(body, current, num);
      Get(prepared, "market_value") == Num(q * p)
      && Get(prepared, "profit_loss") == Num(q * (p - current.costPrice))
      && Get(prepared, "profit_loss_rate") == Num((p - current.costPrice) / current.costPrice * 100.0)
  {
    RepricedFigures(body, current, num, q, p);
    FiguresMeaning(q, p, current.costPrice);
  }

  lemma RepricedFigures(body: Body, current: Stored, num: string -> Option<real>, q: real, p: real)
    requires Get(body, "quantity") == Num(q) && Get(body, "currentPrice") == Num(p)
    requires q > 0.0 && p > 0.0 && current.costPrice != 0.0
    ensures Reprices(body)
    ensures Repriced(body, current, num) == FiguresOf(Some(q), Some(p), Some(current.costPrice))
  {
    assert Either(Get(body, "quantity"), current.quantity, num) == Some(q);
    assert Either(Get(body, "currentPrice"), current.currentPrice, num) == Some(p);

  }

  lemma DerivedKeysDistinct()
    ensures "market_value" != "profit_loss" && "market_value" != "profit_loss_rate"
    ensures "profit_loss" != "profit_loss_rate"
  {
    assert "market_value"[0] != "profit_loss"[0];
    assert "market_value"[0] != "profit_loss_rate"[0];
    assert |"profit_loss"| != |"profit_loss_rate"|;
  }

  /** Every field other than the three derived ones is sent as given. */
  lemma PreparedKeepsFields(body: Body, current: Stored, num: string -> Option<real>, k: string)
    requires k != "market_value" && k != "profit_loss" && k != "profit_loss_rate"
    ensures Get(Prepared(body, current, num), k) == Get(body, k)
  {
  }

  /** Without a new price or quantity the body is sent as given. */
  lemma UpdateKeepsBody(body: Body, current: Stored, num: string -> Option<real>)
    requires !Truthy(Get(body, "currentPrice")) && !Truthy(Get(body, "quantity"))
    ensures Prepared(body, current, num) == body
  {
  }

  // ---------------------------------------------------------------------
  // Summary
  // ---------------------------------------------------------------------

  datatype Holding = Holding(marketValue: real, profitLoss: real, profitLossRate: real, category: string)

  datatype Summary = Summary(
    totalAssets: real, availableCash: real, totalMarketValue: real,
    totalProfitLoss: real, totalProfitLossRate: real,
    leftSideRatio: real, rightSideRatio: real, defensiveRatio: real, observationRatio: real)

  function TotalValue(hs: seq<Holding>): real
  {
    if |hs| == 0 then 0.0 else TotalValue(hs[..|hs| - 1]) + hs[|hs| - 1].marketValue
  }

  function TotalProfit(hs: seq<Holding>): real
  {
    if |hs| == 0 then 0.0 else TotalProfit(hs[..|hs| - 1]) + hs[|hs| - 1].profitLoss
  }

  function TotalRate(hs: seq<Holding>): real
  {
    if |hs| == 0 then 0.0 else TotalRate(hs[..|hs| - 1]) + hs[|hs| - 1].profitLossRate
  }

  /** `SUM(CASE WHEN category = c THEN market_value ELSE 0 END)`. */
  function CategoryValue(hs: seq<Holding>, c: string): real
  {
    if |hs| == 0 then 0.0
    else CategoryValue(hs[..|hs| - 1], c) + (if hs[|hs| - 1].category == c then hs[|hs| - 1].marketValue else 0.0)
  }

  function Share(part: real, total: real): real
  {
    if total > 0.0 then part / total * 100.0 else 0.0
  }

  /** The summary; an empty portfolio's sums are `NULL`, read as 0. */
  function SummaryOf(hs: seq<Holding>): Summary
  {
    var total := TotalValue(hs);
    Summary(total + AvailableCash, AvailableCash, total, TotalProfit(hs),
            if |hs| == 0 then 0.0 else TotalRate(hs) / |hs| as real,
            Share(CategoryValue(hs, "left"), total), Share(CategoryValue(hs, "right"), total),
            Share(CategoryValue(hs, "defensive"), total), Share(CategoryValue(hs, "observation"), total))
  }

  predicate Categorised(hs: seq<Holding>)
  {
    forall i :: 0 <= i < |hs| ==> hs[i].category in {"left", "right", "defensive", "observation"}
  }

  /** The four categories split the total when every holding is in one. */
  lemma {:induction false} CategoriesPartition(hs: seq<Holding>)
    requires Categorised(hs)
    ensures CategoryValue(hs, "left") + CategoryValue(hs, "right")
      + CategoryValue(hs, "defensive") + CategoryValue(hs, "observation") == TotalValue(hs)
  {
    if |hs| > 0 {
      CategoriesPartition(hs[..|hs| - 1]);
    }
  }

  /** A category's value is between 0 and the total when no value is
    * negative. */
  lemma {:induction false} CategoryValueBounds(hs: seq<Holding>, c: string)
    requires forall i :: 0 <= i < |hs| ==> hs[i].marketValue >= 0.0
    ensures 0.0 <= CategoryValue(hs, c) <= TotalValue(hs)
  {
    if |hs| > 0 {
      CategoryValueBounds(hs[..|hs| - 1], c);
    }
  }

  /** Total assets are the market value plus the assumed cash; a portfolio
    * worth nothing has all ratios 0; otherwise, with non-negative values,
    * each ratio is a percentage, and they add up to 100 when every holding
    * has one of the four categories. */
  lemma SummaryRatios(hs: seq<Holding>)
    ensures var s := SummaryOf(hs);
      s.totalAssets == s.totalMarketValue + AvailableCash && s.totalMarketValue == TotalValue(hs)
    ensures var s := SummaryOf(hs);
      s.totalMarketValue <= 0.0 ==>
        s.leftSideRatio == 0.0 && s.rightSideRatio == 0.0 && s.defensiveRatio == 0.0 && s.observationRatio == 0.0
    ensures var s := SummaryOf(hs);
      s.totalMarketValue > 0.0 && Categorised(hs) ==>
        s.leftSideRatio + s.rightSideRatio + s.defensiveRatio + s.observationRatio == 100.0
    ensures var s := SummaryOf(hs);
      (forall i :: 0 <= i < |hs| ==> hs[i].marketValue >= 0.0) ==>
        0.0 <= s.leftSideRatio <= 100.0 && 0.0 <= s.rightSideRatio <= 100.0
        && 0.0 <= s.defensiveRatio <= 100.0 && 0.0 <= s.observationRatio <= 100.0
  {
    var t := TotalValue(hs);
    var l, r, d, o := CategoryValue(hs, "left"), CategoryValue(hs, "right"),
      CategoryValue(hs, "defensive"), CategoryValue(hs, "observation");
    if t > 0.0 && Categorised(hs) {
      CategoriesPartition(hs);
      ShareSum(l, r, d, o, t);
    }
    if forall i :: 0 <= i < |hs| ==> hs[i].marketValue >= 0.0 {
      CategoryValueBounds(hs, "left");
      CategoryValueBounds(hs, "right");
      CategoryValueBounds(hs, "defensive");
      CategoryValueBounds(hs, "observation");
      ShareBounds(l, t);
      ShareBounds(r, t);
      ShareBounds(d, t);
      ShareBounds(o, t);
    }
  }

  lemma ShareSum(l: real, r: real, d: real, o: real, t: real)
    requires t > 0.0 && l + r + d + o == t
    ensures Share(l, t) + Share(r, t) + Share(d, t) + Share(o, t) == 100.0
  {
    assert l / t + r / t + d / t + o / t == (l + r + d + o) / t;
  }

  lemma ShareBounds(part: real, total: real)
    requires 0.0 <= part <= total
    ensures 0.0 <= Share(part, total) <= 100.0
  {
    if total > 0.0 {
      assert part / total <= 1.0;
    }
  }
}
