// The portfolio slice of the front-end store: the positions list, the
// summary, and the loading and error flags, updated in place by its
// reducers.

module PortfolioSlice {
  import opened Util
  import opened Store

  datatype Category = Left | Right | Defensive | Observation

  /** A position as the client holds it; `profitLossRate` is `None` where
    * the client's division leaves NaN or Infinity. */
  datatype Position = Position(
    id: string, stockCode: string, stockName: string,
    quantity: real, costPrice: real, currentPrice: real,
    marketValue: real, profitLoss: real, profitLossRate: Option<real>,
    positionRatio: real, category: Category, createdAt: string, updatedAt: string)

  datatype Summary = Summary(
    totalAssets: real, availableCash: real, totalMarketValue: real,
    totalProfitLoss: real, totalProfitLossRate: real,
    leftSideRatio: real, rightSideRatio: real, defensiveRatio: real, observationRatio: real)

  /** The slice's state. */
  datatype Portfolio = Portfolio(positions: seq<Position>, summary: Option<Summary>, loading: bool, error: Option<string>)

  const FetchFailed := "获取持仓失败"
  const AddFailed := "添加持仓失败"

  // ---------------------------------------------------------------------
  // Finding a position
  // ---------------------------------------------------------------------

  function Codes(ps: seq<Position>): seq<string>
  {
    seq(|ps|, i requires 0 <= i < |ps| => ps[i].stockCode)
  }

  function Ids(ps: seq<Position>): seq<string>
  {
    seq(|ps|, i requires 0 <= i < |ps| => ps[i].id)
  }

  /** `find`/`findIndex`: the first index holding `k`, `None` (-1) when
    * there is none. */
  function FirstIndex(keys: seq<string>, k: string): (r: Option<nat>)
    ensures r.None? <==> k !in keys
    ensures r.Some? ==> r.value < |keys| && keys[r.value] == k
    ensures r.Some? ==> forall j :: 0 <= j < r.value ==> keys[j] != k
  {
    if |keys| == 0 then None
    else if keys[0] == k then Some(0)
    else
      match FirstIndex(keys[1..], k)
      case None => None
      case Some(i) => Some(i + 1)
  }

  /** The index a left-to-right search stops at is the first index. */
  lemma {:induction false} FirstIndexAt(keys: seq<string>, k: string, i: nat)
    requires i < |keys| && keys[i] == k
    requires forall j :: 0 <= j < i ==> keys[j] != k
    ensures FirstIndex(keys, k) == Some(i)
  {
    if i > 0 {
      FirstIndexAt(keys[1..], k, i - 1);
    }
  }

  // ---------------------------------------------------------------------
  // updatePositionPrice
  // ---------------------------------------------------------------------

  /** A position re-priced on the client: new price, market value, profit
    * and rate; the rate is `None` when the cost basis is zero. */
  function Repriced(p: Position, price: real): Position
  {
    var marketValue := p.quantity * price;
    var basis := p.quantity * p.costPrice;
    var profitLoss := marketValue - basis;
    p.(currentPrice := price, marketValue := marketValue, profitLoss := profitLoss,
       profitLossRate := RateOf(profitLoss, basis))
  }

  /** The profit over the cost basis in percent; none for a zero basis. */
  function RateOf(profitLoss: real, basis: real): Option<real>
  {
    if basis == 0.0 then None else Some(profitLoss / basis * 100.0)
  }

  /** The re-priced figures mean what they should: the profit is the gain
    * per share times the quantity, the rate is the gain per share over the
    * cost, positive exactly when the price is above a positive cost, and
    * only the four figures change. */
  lemma RepricedMeaning(p: Position, price: real)
    ensures var r := Repriced(p, price);
      r.currentPrice == price && r.marketValue == p.quantity * price
      && r.profitLoss == p.quantity * (price - p.costPrice)
      && r.(currentPrice := p.currentPrice, marketValue := p.marketValue, profitLoss := p.profitLoss,
            profitLossRate := p.profitLossRate) == p
  {
    assert p.quantity * price - p.quantity * p.costPrice == p.quantity * (price - p.costPrice);
  }

  /** The rate is missing exactly for a zero quantity or cost. */
  lemma RepricedRateMissing(p: Position, price: real)
    ensures Repriced(p, price).profitLossRate.None? <==> p.quantity == 0.0 || p.costPrice == 0.0
  {
    var r := Repriced(p, price);
    assert r.profitLossRate == RateOf(r.profitLoss, p.quantity * p.costPrice);
    ZeroProduct(p.quantity, p.costPrice);
  }

  /** Otherwise the rate is the gain per share over the cost, in percent. */
  lemma RepricedRate(p: Position, price: real)
    requires p.quantity != 0.0 && p.costPrice != 0.0
    ensures Repriced(p, price).profitLossRate == Some((price - p.costPrice) / p.costPrice * 100.0)
  {
    var r := Repriced(p, price);
    var basis := p.quantity * p.costPrice;
    assert r.profitLossRate == RateOf(r.profitLoss, basis);
    ZeroProduct(p.quantity, p.costPrice);
    RateOfGain(p.quantity, p.costPrice, price, r.profitLoss, basis);
  }

  /** For a positive cost the rate is positive exactly when the price is
    * above the cost. */
  lemma RepricedRateSign(p: Position, price: real)
    requires p.quantity != 0.0 && p.costPrice > 0.0
    ensures Repriced(p, price).profitLossRate.value > 0.0 <==> price > p.costPrice
  {
    RepricedRate(p, price);
    GainSign(p.costPrice, price);
  }

  lemma GainSign(c: real, price: real)
    requires c > 0.0
    ensures (price - c) / c * 100.0 > 0.0 <==> price > c
  {
  }

  lemma ZeroProduct(q: real, c: real)
    ensures q * c == 0.0 <==> q == 0.0 || c == 0.0
  {
    if q != 0.0 && c != 0.0 {
      assert q * c / c == q;
    }
  }

  lemma RateOfGain(q: real, c: real, price: real, gain: real, basis: real)
    requires q != 0.0 && c != 0.0 && basis == q * c && gain == q * price - basis
    ensures gain / basis * 100.0 == (price - c) / c * 100.0
  {
    assert gain == q * (price - c);
    ZeroProduct(q, c);
    assert (q * (price - c)) / (q * c) == (price - c) / c;
  }

  /** Re-pricing twice is re-pricing at the later price: only the quantity
    * and the cost feed the figures. */
  lemma RepricedLatest(p: Position, price: real, later: real)
    ensures Repriced(Repriced(p, price), later) == Repriced(p, later)
  {
    var r := Repriced(p, price);
    assert r.quantity == p.quantity && r.costPrice == p.costPrice;
  }

  /** The positions after re-pricing the first one with `code`. */
  function PricedFirst(ps: seq<Position>, code: string, price: real): (r: seq<Position>)
    ensures |r| == |ps|
  {
    match FirstIndex(Codes(ps), code)
    case None => ps
    case Some(i) => ps[i := Repriced(ps[i], price)]
  }

  /** Only the first position with the code is re-priced and every other
    * one stays as it was; with no match nothing changes. */
  lemma PricedFirstRules(ps: seq<Position>, code: string, price: real, i: nat)
    ensures (forall j :: 0 <= j < |ps| ==> ps[j].stockCode != code) ==> PricedFirst(ps, code, price) == ps
    ensures i < |ps| && ps[i].stockCode == code && (forall m :: 0 <= m < i ==> ps[m].stockCode != code) ==>
      PricedFirst(ps, code, price) == ps[i := Repriced(ps[i], price)]
  {
    var keys := Codes(ps);
    if i < |ps| && ps[i].stockCode == code && (forall m :: 0 <= m < i ==> ps[m].stockCode != code) {
      FirstIndexAt(keys, code, i);
    }
    if forall j :: 0 <= j < |ps| ==> ps[j].stockCode != code {
      assert code !in keys;
    }
  }

  // ---------------------------------------------------------------------
  // updatePosition.fulfilled and deletePosition.fulfilled
  // ---------------------------------------------------------------------

  /** The positions after replacing the first one with the updated id. */
  function Replaced(ps: seq<Position>, updated: Position): (r: seq<Position>)
    ensures |r| == |ps|
  {
    match FirstIndex(Ids(ps), updated.id)
    case None => ps
    case Some(i) => ps[i := updated]
  }

  /** The first position with the id is replaced and nothing else changes;
    * an unknown id changes nothing. */
  lemma ReplacedRules(ps: seq<Position>, u: Position, i: nat)
    ensures (forall j :: 0 <= j < |ps| ==> ps[j].id != u.id) ==> Replaced(ps, u) == ps
    ensures i < |ps| && ps[i].id == u.id && (forall m :: 0 <= m < i ==> ps[m].id != u.id) ==>
      Replaced(ps, u) == ps[i := u]
  {
    var keys := Ids(ps);
    if i < |ps| && ps[i].id == u.id && (forall m :: 0 <= m < i ==> ps[m].id != u.id) {
      FirstIndexAt(keys, u.id, i);
    }
    if forall j :: 0 <= j < |ps| ==> ps[j].id != u.id {
      assert u.id !in keys;
    }
  }

  /** Replacing keeps the ids, so replacing again with the same position
    * changes nothing more, and the update is in the list exactly when its
    * id was. */
  lemma ReplacedIds(ps: seq<Position>, u: Position)
    ensures Ids(Replaced(ps, u)) == Ids(ps)
    ensures Replaced(Replaced(ps, u), u) == Replaced(ps, u)
    ensures u in Replaced(ps, u) <==> u in ps || u.id in Ids(ps)
  {
    var keys := Ids(ps);
    var r := Replaced(ps, u);
    if u in ps {
      var k :| 0 <= k < |ps| && ps[k] == u;
      assert keys[k] == u.id;
    }
    var f := FirstIndex(keys, u.id);
    if f.Some? {
      var i := f.value;
      assert r == ps[i := u];
      assert Ids(r) == keys by {
        forall j | 0 <= j < |ps| ensures Ids(r)[j] == keys[j] {}
      }
      assert r[i] == u;
    } else {
      assert r == ps;
    }
  }

  /** The filter predicate `p => p.id !== id`. */
  function OtherId(id: string): Position -> bool
  {
    (p: Position) => p.id != id
  }

  /** `positions.filter(p => p.id !== id)`. */
  function WithoutId(ps: seq<Position>, id: string): (r: seq<Position>)
    ensures |r| <= |ps|
  {
    Filter(ps, OtherId(id))
  }

  /** Deleting keeps exactly the positions with another id, and the length
    * is kept exactly when no position has the id. */
  lemma WithoutIdMeaning(ps: seq<Position>, id: string)
    ensures forall p :: p in WithoutId(ps, id) <==> p in ps && p.id != id
    ensures |WithoutId(ps, id)| == |ps| <==> id !in Ids(ps)
  {
    FilterMembers(ps, OtherId(id));
    FilterLength(ps, OtherId(id));
    if id in Ids(ps) {
      var i :| 0 <= i < |ps| && Ids(ps)[i] == id;
      assert !OtherId(id)(ps[i]);
    } else {
      forall i | 0 <= i < |ps| ensures OtherId(id)(ps[i]) {
        assert Ids(ps)[i] == ps[i].id;
      }
    }
  }

  /** Deleting distributes over concatenation, so the kept positions stay
    * in their order. */
  lemma WithoutIdConcat(ps: seq<Position>, qs: seq<Position>, id: string)
    ensures WithoutId(ps + qs, id) == WithoutId(ps, id) + WithoutId(qs, id)
  {
    FilterConcat(ps, qs, OtherId(id));
  }

  /** Deleting twice is deleting once. */
  lemma WithoutIdTwice(ps: seq<Position>, id: string)
    ensures WithoutId(WithoutId(ps, id), id) == WithoutId(ps, id)
  {
    FilterTwice(ps, OtherId(id));
  }

  // ---------------------------------------------------------------------
  // The slice
  // ---------------------------------------------------------------------

  class PortfolioStore {
    var positions: seq<Position>
    var summary: Option<Summary>
    var loading: bool
    var error: Option<string>

    function State(): Portfolio
      reads this
    {
      Portfolio(positions, summary, loading, error)
    }

    /** The initial state: no positions, no summary, idle, no error. */
    constructor()
      ensures State() == Portfolio([], None, false, None)
    {
      positions := [];
      summary := None;
      loading := false;
      error := None;
    }

    /** `updatePositionPrice`: re-prices the first position with the code. */
    method UpdatePositionPrice(stockCode: string, price: real)
      modifies this
      ensures State() == old(State()).(positions := PricedFirst(old(positions), stockCode, price))
    {
      var i := 0;
      while i < |positions| && positions[i].stockCode != stockCode
        invariant 0 <= i <= |positions|
        invariant forall j :: 0 <= j < i ==> positions[j].stockCode != stockCode
      {
        i := i + 1;
      }
      if i < |positions| {
        FirstIndexAt(Codes(positions), stockCode, i);
        positions := positions[i := Repriced(positions[i], price)];
      } else {
        assert stockCode !in Codes(positions) by {
          forall j | 0 <= j < |positions| ensures Codes(positions)[j] != stockCode {}
        }
      }
    }

    /** `clearError`. */
    method ClearError()
      modifies this
      ensures State() == old(State()).(error := None)
    {
      error := None;
    }

    /** `fetchPositions.pending` and `addPosition.pending`. */
    method Pending()
      modifies this
      ensures State() == old(State()).(loading := true, error := None)
    {
      loading := true;
      error := None;
    }

    /** `fetchPositions.rejected` (fallback `FetchFailed`) and
      * `addPosition.rejected` (fallback `AddFailed`). */
    method Rejected(message: Option<string>, fallback: string)
      modifies this
      ensures State() == old(State()).(loading := false, error := Some(ErrorText(message, fallback)))
    {
      loading := false;
      error := Some(if message.Some? && message.value != "" then message.value else fallback);
    }

    /** `fetchPositions.fulfilled`: the fetched list replaces the positions. */
    method FetchFulfilled(payload: Payload<seq<Position>>)
      modifies this
      ensures State() == old(State()).(loading := false, positions := Unwrap(payload))
    {
      loading := false;
      positions := if payload.Enveloped? then payload.data else payload.value;
    }

    /** `addPosition.fulfilled`: the new position is pushed at the end. */
    method AddFulfilled(p: Position)
      modifies this
      ensures State() == old(State()).(loading := false, positions := old(positions) + [p])
    {
      loading := false;
      positions := positions + [p];
    }

    /** `updatePosition.fulfilled`: the first position with the updated id
      * is replaced. */
    method UpdateFulfilled(payload: Payload<Position>)
      modifies this
      ensures State() == old(State()).(positions := Replaced(old(positions), Unwrap(payload)))
    {
      var updated := if payload.Enveloped? then payload.data else payload.value;
      var i := 0;
      while i < |positions| && positions[i].id != updated.id
        invariant 0 <= i <= |positions|
        invariant forall j :: 0 <= j < i ==> positions[j].id != updated.id
      {
        i := i + 1;
      }
      if i < |positions| {
        FirstIndexAt(Ids(positions), updated.id, i);
        positions := positions[i := updated];
      } else {
        assert updated.id !in Ids(positions) by {
          forall j | 0 <= j < |positions| ensures Ids(positions)[j] != updated.id {}
        }
      }
    }

    /** `deletePosition.fulfilled`: the positions with the id are dropped. */
    method DeleteFulfilled(id: string)
      modifies this
      ensures State() == old(State()).(positions := WithoutId(old(positions), id))
    {
      positions := WithoutId(positions, id);
    }

    /** `fetchPortfolioSummary.fulfilled`. */
    method SummaryFulfilled(payload: Payload<Summary>)
      modifies this
      ensures State() == old(State()).(summary := Some(Unwrap(payload)))
    {
      summary := Some(if payload.Enveloped? then payload.data else payload.value);
    }
  }

  /** Adding a position and then deleting its id leaves what deleting the
    * id alone would have left. */
  lemma AddThenDelete(ps: seq<Position>, p: Position)
    ensures WithoutId(ps + [p], p.id) == WithoutId(ps, p.id)
  {
    WithoutIdConcat(ps, [p], p.id);
    assert [p][..0] == [];
  }
}
