// Technical indicators over a series of daily closing prices: moving
// averages, EMA, MACD, RSI, KDJ, the trend label, its strength, support and
// resistance, and the trading signals derived from the latest values.

module TechnicalAnalysis {
  import opened Util

  datatype Trend = Up | Down | Sideways
  datatype SignalType = Buy | Sell | Hold
  datatype SignalStrength = Weak | Medium | Strong
  datatype Signal = Signal(kind: SignalType, strength: SignalStrength, description: string)

  datatype Macd = Macd(value: real, signal: real, histogram: real)
  datatype Kdj = Kdj(k: real, d: real, j: real)

  datatype Bollinger = Bollinger(upper: real, middle: real, lower: real)

  /** The latest indicator values; `None` stands for JavaScript `undefined`
    * (an indicator array too short to have a last element). The inner
    * option of `kdj` is the NaN entry produced by a flat price window. */
  datatype Indicators = Indicators(
    ma5: Option<real>, ma10: Option<real>, ma20: Option<real>,
    ma60: Option<real>, ma120: Option<real>, ma250: Option<real>,
    macd: Macd, rsi: Option<real>, kdj: Option<Option<Kdj>>,
    boll: Option<Bollinger>)

  datatype TechnicalReport = TechnicalReport(
    trend: Trend, strength: Option<real>, support: real, resistance: real,
    indicators: Indicators, signals: seq<Signal>)

  const RsiPeriod: nat := 14
  const KdjPeriod: nat := 9
  const BollPeriod: nat := 20
  const StrengthWindow: nat := 20
  const LevelWindow: nat := 60

  // ---------------------------------------------------------------------
  // Moving average

  /** The arithmetic mean of the `period` closes that start at index `j`. */
  function WindowMean(prices: seq<real>, j: nat, period: nat): real
    requires period >= 1 && j + period <= |prices|
  {
    Sum(prices[j..j + period]) / period as real
  }

  method CalculateMA(prices: seq<real>, period: nat) returns (ma: seq<real>)
    requires period >= 1
    ensures |ma| == if |prices| >= period then |prices| - period + 1 else 0
    ensures forall j :: 0 <= j < |ma| ==> ma[j] == WindowMean(prices, j, period)
  {
    ma := [];
    var i := period - 1;
    while i < |prices|
      invariant period - 1 <= i
      invariant i == period - 1 || i <= |prices|
      invariant |ma| == i - (period - 1)
      invariant forall j :: 0 <= j < |ma| ==> ma[j] == WindowMean(prices, j, period)
    {
      var sum := Sum(prices[i - period + 1..i + 1]);
      ma := ma + [sum / period as real];
      i := i + 1;
    }
  }

  /** A mean of closes that all lie in [lo, hi] lies in [lo, hi]. */
  lemma {:induction false} WindowMeanBounds(prices: seq<real>, j: nat, period: nat, lo: real, hi: real)
    requires period >= 1 && j + period <= |prices|
    requires forall i :: j <= i < j + period ==> lo <= prices[i] <= hi
    ensures lo <= WindowMean(prices, j, period) <= hi
  {
    var w := prices[j..j + period];
    assert forall i :: 0 <= i < |w| ==> w[i] == prices[j + i];
    MeanBounds(w, lo, hi);
  }

  // ---------------------------------------------------------------------
  // Exponential moving average

  /** The smoothing factor `2 / (period + 1)`. */
  function Multiplier(period: nat): (k: real)
    ensures 0.0 < k <= 2.0
  {
    2.0 / (period as real + 1.0)
  }

  /** ema[0] = prices[0]; ema[i] = prices[i]·k + ema[i−1]·(1−k). */
  function EmaAt(prices: seq<real>, k: real, i: nat): real
    requires i < |prices|
  {
    if i == 0 then prices[0] else prices[i] * k + EmaAt(prices, k, i - 1) * (1.0 - k)
  }

  method CalculateEMA(prices: seq<real>, period: nat) returns (ema: seq<real>)
    requires |prices| > 0
    ensures |ema| == |prices|
    ensures forall i :: 0 <= i < |ema| ==> ema[i] == EmaAt(prices, Multiplier(period), i)
  {
    var k := Multiplier(period);
    ema := [prices[0]];
    var i := 1;
    while i < |prices|
      invariant 1 <= i <= |prices|
      invariant |ema| == i
      invariant forall m :: 0 <= m < i ==> ema[m] == EmaAt(prices, k, m)
    {
      assert EmaAt(prices, k, i) == prices[i] * k + EmaAt(prices, k, i - 1) * (1.0 - k);
      ema := ema + [prices[i] * k + ema[i - 1] * (1.0 - k)];
      i := i + 1;
    }
  }

  /** A constant series is its own EMA. */
  lemma {:induction false} EmaOfConstant(prices: seq<real>, c: real, k: real, i: nat)
    requires i < |prices|
    requires forall m :: 0 <= m < |prices| ==> prices[m] == c
    ensures EmaAt(prices, k, i) == c
  {
    if i > 0 {
      EmaOfConstant(prices, c, k, i - 1);
    }
  }

  /** With a smoothing factor in (0, 1] the EMA stays within the range of
    * the closes seen so far. */
  lemma {:induction false} EmaBounds(prices: seq<real>, k: real, i: nat, lo: real, hi: real)
    requires i < |prices| && 0.0 < k <= 1.0
    requires forall m :: 0 <= m <= i ==> lo <= prices[m] <= hi
    ensures lo <= EmaAt(prices, k, i) <= hi
  {
    if i > 0 {
      EmaBounds(prices, k, i - 1, lo, hi);
      Blend(prices[i], EmaAt(prices, k, i - 1), k, lo, hi);
    }
  }

  /** A blend `p·k + e·(1 − k)` with `k` in (0, 1] lies between bounds of
    * `p` and `e`. */
  lemma Blend(p: real, e: real, k: real, lo: real, hi: real)
    requires lo <= p <= hi && lo <= e <= hi && 0.0 < k <= 1.0
    ensures lo <= p * k + e * (1.0 - k) <= hi
  {
    assert p * k + e * (1.0 - k) - lo == (p - lo) * k + (e - lo) * (1.0 - k);
    assert hi - (p * k + e * (1.0 - k)) == (hi - p) * k + (hi - e) * (1.0 - k);
    MulNonNegative(p - lo, k);
    MulNonNegative(e - lo, 1.0 - k);
    MulNonNegative(hi - p, k);
    MulNonNegative(hi - e, 1.0 - k);
  }

  lemma MulNonNegative(a: real, b: real)
    requires a >= 0.0 && b >= 0.0
    ensures a * b >= 0.0
  {
  }

  // ---------------------------------------------------------------------
  // MACD

  /** The MACD line: EMA12 − EMA26 at every index. */
  function MacdLine(prices: seq<real>): (r: seq<real>)
    ensures |r| == |prices|
  {
    seq(|prices|, i requires 0 <= i < |prices| =>
      EmaAt(prices, Multiplier(12), i) - EmaAt(prices, Multiplier(26), i))
  }

  method CalculateMACD(prices: seq<real>) returns (macd: seq<Macd>)
    requires |prices| > 0
    ensures |macd| == |prices|
    ensures forall i :: 0 <= i < |macd| ==>
      macd[i].value == MacdLine(prices)[i] &&
      macd[i].signal == EmaAt(MacdLine(prices), Multiplier(9), i) &&
      macd[i].histogram == macd[i].value - macd[i].signal
  {
    var ema12 := CalculateEMA(prices, 12);
    var ema26 := CalculateEMA(prices, 26);
    var line := new Macd[|ema12|](_ => Macd(0.0, 0.0, 0.0));
    var i := 0;
    while i < line.Length
      invariant 0 <= i <= line.Length
      invariant forall m :: 0 <= m < i ==> line[m] == Macd(MacdLine(prices)[m], 0.0, 0.0)
    {
      line[i] := Macd(ema12[i] - ema26[i], 0.0, 0.0);
      i := i + 1;
    }
    var values := seq(line.Length, m requires 0 <= m < line.Length reads line => line[m].value);
    assert values == MacdLine(prices);
    var signalLine := CalculateEMA(values, 9);
    i := 0;
    while i < line.Length
      invariant 0 <= i <= line.Length
      invariant forall m :: 0 <= m < i ==>
        line[m] == Macd(values[m], signalLine[m], values[m] - signalLine[m])
      invariant forall m :: i <= m < line.Length ==> line[m] == Macd(values[m], 0.0, 0.0)
    {
      if i < |signalLine| {
        line[i] := line[i].(signal := signalLine[i], histogram := line[i].value - signalLine[i]);
      }
      i := i + 1;
    }
    macd := line[..];
  }

  /** A flat price series has a zero MACD line, signal and histogram. */
  lemma MacdOfConstant(prices: seq<real>, c: real, i: nat)
    requires i < |prices|
    requires forall m :: 0 <= m < |prices| ==> prices[m] == c
    ensures MacdLine(prices)[i] == 0.0
    ensures EmaAt(MacdLine(prices), Multiplier(9), i) == 0.0
  {
    EmaOfConstant(prices, c, Multiplier(12), i);
    EmaOfConstant(prices, c, Multiplier(26), i);
    var line := MacdLine(prices);
    forall m | 0 <= m < |line|
      ensures line[m] == 0.0
    {
      EmaOfConstant(prices, c, Multiplier(12), m);
      EmaOfConstant(prices, c, Multiplier(26), m);
    }
    EmaOfConstant(line, 0.0, Multiplier(9), i);
  }

  // ---------------------------------------------------------------------
  // RSI

  function Gain(change: real): real { if change > 0.0 then change else 0.0 }
  function Loss(change: real): real { if change < 0.0 then -change else 0.0 }

  function ChangeCount(prices: seq<real>): nat
  {
    if |prices| == 0 then 0 else |prices| - 1
  }

  /** Day-over-day gains (the positive part of each change). */
  function Gains(prices: seq<real>): (g: seq<real>)
    ensures |g| == ChangeCount(prices)
  {
    if |prices| < 2 then []
    else Gains(prices[..|prices| - 1]) + [Gain(prices[|prices| - 1] - prices[|prices| - 2])]
  }

  /** Day-over-day losses (the magnitude of each negative change). */
  function Losses(prices: seq<real>): (l: seq<real>)
    ensures |l| == ChangeCount(prices)
  {
    if |prices| < 2 then []
    else Losses(prices[..|prices| - 1]) + [Loss(prices[|prices| - 1] - prices[|prices| - 2])]
  }

  lemma {:induction false} GainsLossesNonNegative(prices: seq<real>)
    ensures forall m :: 0 <= m < ChangeCount(prices) ==> Gains(prices)[m] >= 0.0 && Losses(prices)[m] >= 0.0
  {
    if |prices| >= 2 {
      GainsLossesNonNegative(prices[..|prices| - 1]);
    }
  }

  /** 100 when there is no average loss, else 100 − 100 / (1 + RS). */
  function RsiValue(avgGain: real, avgLoss: real): real
    requires avgGain >= 0.0 && avgLoss >= 0.0
  {
    if avgLoss == 0.0 then 100.0 else 100.0 - 100.0 / (1.0 + avgGain / avgLoss)
  }

  /** The RSI of the 14 changes that start at change index `j`. */
  function RsiAt(prices: seq<real>, j: nat): real
    requires j + RsiPeriod <= ChangeCount(prices)
  {
    WindowsNonNegative(prices, j);
    RsiValue(Sum(Gains(prices)[j..j + RsiPeriod]) / RsiPeriod as real,
             Sum(Losses(prices)[j..j + RsiPeriod]) / RsiPeriod as real)
  }

  lemma RsiValueRange(avgGain: real, avgLoss: real)
    requires avgGain >= 0.0 && avgLoss >= 0.0
    ensures 0.0 <= RsiValue(avgGain, avgLoss) <= 100.0
    ensures RsiValue(avgGain, avgLoss) == 100.0 <==> avgLoss == 0.0
  {
    if avgLoss != 0.0 {
      var rs := avgGain / avgLoss;
      assert rs * avgLoss == avgGain;
      assert rs >= 0.0;
      var q := 100.0 / (1.0 + rs);
      assert q * (1.0 + rs) == 100.0;
      assert q > 0.0;
      assert q * rs >= 0.0;
      assert q <= 100.0;
    }
  }

  /** Every RSI value lies in [0, 100] and is exactly 100 iff the window
    * holds no loss. */
  lemma RsiAtRange(prices: seq<real>, j: nat)
    requires j + RsiPeriod <= ChangeCount(prices)
    ensures 0.0 <= RsiAt(prices, j) <= 100.0
    ensures RsiAt(prices, j) == 100.0 <==> Sum(Losses(prices)[j..j + RsiPeriod]) == 0.0
  {
    var g := Gains(prices)[j..j + RsiPeriod];
    var l := Losses(prices)[j..j + RsiPeriod];
    WindowsNonNegative(prices, j);
    assert RsiAt(prices, j) == RsiValue(Sum(g) / 14.0, Sum(l) / 14.0);
    RsiValueRange(Sum(g) / 14.0, Sum(l) / 14.0);
  }

  /** Gains and losses are never negative, so neither are their window sums. */
  lemma WindowsNonNegative(prices: seq<real>, j: nat)
    requires j + RsiPeriod <= ChangeCount(prices)
    ensures Sum(Gains(prices)[j..j + RsiPeriod]) >= 0.0
    ensures Sum(Losses(prices)[j..j + RsiPeriod]) >= 0.0
  {
    var g := Gains(prices)[j..j + RsiPeriod];
    var l := Losses(prices)[j..j + RsiPeriod];
    GainsLossesNonNegative(prices);
    assert forall m :: 0 <= m < |g| ==> g[m] == Gains(prices)[j + m];
    assert forall m :: 0 <= m < |l| ==> l[m] == Losses(prices)[j + m];
    SumNonNegative(g);
    SumNonNegative(l);
  }

  /** The day-over-day gains and losses, built in one pass. */
  method ChangesOf(prices: seq<real>) returns (gains: seq<real>, losses: seq<real>)
    ensures gains == Gains(prices) && losses == Losses(prices)
  {
    gains, losses := [], [];
    if |prices| == 0 {
      return;
    }
    var i := 1;
    while i < |prices|
      invariant 1 <= i <= |prices|
      invariant gains == Gains(prices[..i]) && losses == Losses(prices[..i])
    {
      assert prices[..i + 1][..i] == prices[..i];
      var change := prices[i] - prices[i - 1];
      gains := gains + [if change > 0.0 then change else 0.0];
      losses := losses + [if change < 0.0 then -change else 0.0];
      i := i + 1;
    }
    assert prices[..i] == prices;
  }

  /** The RSI of one window, from its average gain and loss. */
  method RsiOfWindow(avgGain: real, avgLoss: real) returns (value: real)
    requires avgGain >= 0.0 && avgLoss >= 0.0
    ensures value == RsiValue(avgGain, avgLoss)
  {
    if avgLoss == 0.0 {
      value := 100.0;
    } else {
      var rs := avgGain / avgLoss;
      value := 100.0 - 100.0 / (1.0 + rs);
    }
  }

  method CalculateRSI(prices: seq<real>) returns (rsi: seq<real>)
    ensures |rsi| == if |prices| > RsiPeriod then |prices| - RsiPeriod else 0
    ensures forall j :: 0 <= j < |rsi| ==> j + RsiPeriod <= ChangeCount(prices) && rsi[j] == RsiAt(prices, j)
  {
    var gains, losses := ChangesOf(prices);
    rsi := [];
    var i := RsiPeriod - 1;
    while i < |gains|
      invariant RsiPeriod - 1 <= i
      invariant i == RsiPeriod - 1 || i <= |gains|
      invariant |rsi| == i - (RsiPeriod - 1)
      invariant forall j :: 0 <= j < |rsi| ==> j + RsiPeriod <= ChangeCount(prices) && rsi[j] == RsiAt(prices, j)
    {
      var j := i - (RsiPeriod - 1);
      WindowsNonNegative(prices, j);
      assert gains[i - RsiPeriod + 1..i + 1] == Gains(prices)[j..j + RsiPeriod];
      assert losses[i - RsiPeriod + 1..i + 1] == Losses(prices)[j..j + RsiPeriod];
      var value := RsiOfWindow(Sum(gains[i - RsiPeriod + 1..i + 1]) / RsiPeriod as real,
                               Sum(losses[i - RsiPeriod + 1..i + 1]) / RsiPeriod as real);
      rsi := rsi + [value];
      i := i + 1;
    }
  }

  // ---------------------------------------------------------------------
  // KDJ (highs and lows are both taken from the closes)

  /** RSV of the 9-close window ending at `i`; `None` is the NaN of a flat
    * window, where the range is zero. */
  function Rsv(prices: seq<real>, i: nat): Option<real>
    requires KdjPeriod - 1 <= i < |prices|
  {
    var w := prices[i - KdjPeriod + 1..i + 1];
    var highest := SeqMax(w);
    var lowest := SeqMin(w);
    if highest == lowest then None
    else Some((prices[i] - lowest) / (highest - lowest) * 100.0)
  }

  function KdjAt(prices: seq<real>, i: nat): Option<Kdj>
    requires KdjPeriod - 1 <= i < |prices|
    decreases i
  {
    match Rsv(prices, i)
    case None => None
    case Some(rsv) =>
      if i == KdjPeriod - 1 then Some(Kdj(rsv, rsv, 3.0 * rsv - 2.0 * rsv))
      else match KdjAt(prices, i - 1)
        case None => None
        case Some(prev) =>
          var k := (2.0 * prev.k + rsv) / 3.0;
          var d := (2.0 * prev.d + k) / 3.0;
          Some(Kdj(k, d, 3.0 * k - 2.0 * d))
  }

  method CalculateKDJ(prices: seq<real>) returns (kdj: seq<Option<Kdj>>)
    ensures |kdj| == if |prices| >= KdjPeriod then |prices| - KdjPeriod + 1 else 0
    ensures forall m :: 0 <= m < |kdj| ==> m + KdjPeriod - 1 < |prices| && kdj[m] == KdjAt(prices, m + KdjPeriod - 1)
  {
    kdj := [];
    var i := KdjPeriod - 1;
    while i < |prices|
      invariant KdjPeriod - 1 <= i
      invariant i == KdjPeriod - 1 || i <= |prices|
      invariant |kdj| == i - (KdjPeriod - 1)
      invariant forall m :: 0 <= m < |kdj| ==> kdj[m] == KdjAt(prices, m + KdjPeriod - 1)
    {
      var w := prices[i - KdjPeriod + 1..i + 1];
      var highest := SeqMax(w);
      var lowest := SeqMin(w);
      var entry: Option<Kdj>;
      if highest == lowest {
        entry := None;
      } else {
        var rsv := (prices[i] - lowest) / (highest - lowest) * 100.0;
        var k, d;
        if i == KdjPeriod - 1 {
          k, d := rsv, rsv;
          entry := Some(Kdj(k, d, 3.0 * k - 2.0 * d));
        } else if kdj[|kdj| - 1].None? {
          entry := None;
        } else {
          k := (2.0 * kdj[|kdj| - 1].value.k + rsv) / 3.0;
          d := (2.0 * kdj[|kdj| - 1].value.d + k) / 3.0;
          entry := Some(Kdj(k, d, 3.0 * k - 2.0 * d));
        }
      }
      kdj := kdj + [entry];
      i := i + 1;
    }
  }

  lemma UnitFraction(a: real, b: real)
    requires 0.0 <= a <= b && b > 0.0
    ensures 0.0 <= a / b <= 1.0
  {
  }

  /** RSV of a non-flat window lies in [0, 100]. */
  lemma RsvRange(prices: seq<real>, i: nat)
    requires KdjPeriod - 1 <= i < |prices|
    ensures Rsv(prices, i).Some? ==> 0.0 <= Rsv(prices, i).value <= 100.0
  {
    var w := prices[i - KdjPeriod + 1..i + 1];
    SeqMinMaxBound(w);
    assert prices[i] == w[|w| - 1];
    var lo, hi := SeqMin(w), SeqMax(w);
    if hi != lo {
      assert lo <= w[0] <= hi;
      UnitFraction(prices[i] - lo, hi - lo);
    }
  }

  /** While no window has been flat, K and D stay in [0, 100] and the first
    * entry has K = D = J = RSV. */
  lemma {:induction false} KdjRange(prices: seq<real>, i: nat)
    requires KdjPeriod - 1 <= i < |prices|
    ensures KdjAt(prices, i).Some? ==>
      0.0 <= KdjAt(prices, i).value.k <= 100.0 && 0.0 <= KdjAt(prices, i).value.d <= 100.0
    ensures i == KdjPeriod - 1 && Rsv(prices, i).Some? ==>
      KdjAt(prices, i) == Some(Kdj(Rsv(prices, i).value, Rsv(prices, i).value, Rsv(prices, i).value))
    decreases i
  {
    RsvRange(prices, i);
    if i > KdjPeriod - 1 {
      KdjRange(prices, i - 1);
    }
  }

  /** A flat window turns every later KDJ entry into NaN. */
  lemma {:induction false} KdjNaNPersists(prices: seq<real>, i: nat, j: nat)
    requires KdjPeriod - 1 <= i <= j < |prices|
    requires KdjAt(prices, i).None?
    ensures KdjAt(prices, j).None?
    decreases j
  {
    if j > i {
      KdjNaNPersists(prices, i, j - 1);
    }
  }

  // ---------------------------------------------------------------------
  // Bollinger bands (the square root is a parameter of the model)

  /** Σ (x − mean)² over a window. */
  function SquaredDeviations(w: seq<real>, mean: real): real
  {
    if |w| == 0 then 0.0
    else SquaredDeviations(w[..|w| - 1], mean) + (w[|w| - 1] - mean) * (w[|w| - 1] - mean)
  }

  /** Bands of the 20-close window starting at `j`: the window mean, plus and
    * minus two standard deviations. */
  function BandsAt(prices: seq<real>, j: nat, sqrt: real -> real): Bollinger
    requires j + BollPeriod <= |prices|
  {
    var mean := WindowMean(prices, j, BollPeriod);
    var sd := sqrt(SquaredDeviations(prices[j..j + BollPeriod], mean) / BollPeriod as real);
    Bollinger(mean + 2.0 * sd, mean, mean - 2.0 * sd)
  }

  method CalculateBollingerBands(prices: seq<real>, sqrt: real -> real) returns (boll: seq<Bollinger>)
    ensures |boll| == if |prices| >= BollPeriod then |prices| - BollPeriod + 1 else 0
    ensures forall j :: 0 <= j < |boll| ==> j + BollPeriod <= |prices| && boll[j] == BandsAt(prices, j, sqrt)
  {
    boll := [];
    var ma := CalculateMA(prices, BollPeriod);
    var i := BollPeriod - 1;
    while i < |prices|
      invariant BollPeriod - 1 <= i
      invariant i == BollPeriod - 1 || i <= |prices|
      invariant |boll| == i - (BollPeriod - 1)
      invariant forall j :: 0 <= j < |boll| ==> boll[j] == BandsAt(prices, j, sqrt)
    {
      var slice := prices[i - BollPeriod + 1..i + 1];
      var mean := ma[i - BollPeriod + 1];
      var variance := SquaredDeviations(slice, mean) / BollPeriod as real;
      var standardDeviation := sqrt(variance);
      boll := boll + [Bollinger(mean + 2.0 * standardDeviation, mean, mean - 2.0 * standardDeviation)];
      i := i + 1;
    }
  }

  /** The middle band is the 20-day average and the outer bands are
    * symmetric around it; with a non-negative square root they are ordered. */
  lemma BandsShape(prices: seq<real>, j: nat, sqrt: real -> real)
    requires j + BollPeriod <= |prices|
    ensures BandsAt(prices, j, sqrt).middle == WindowMean(prices, j, BollPeriod)
    ensures BandsAt(prices, j, sqrt).upper - BandsAt(prices, j, sqrt).middle
         == BandsAt(prices, j, sqrt).middle - BandsAt(prices, j, sqrt).lower
    ensures (forall x :: sqrt(x) >= 0.0) ==>
      BandsAt(prices, j, sqrt).lower <= BandsAt(prices, j, sqrt).middle <= BandsAt(prices, j, sqrt).upper
  {
  }

  // ---------------------------------------------------------------------
  // Trend, strength, support and resistance

  /** 'up' on the bullish chain close > MA5 > MA10 > MA20, 'down' on the
    * strict reverse chain; a missing average makes every comparison false. */
  function DetermineTrend(close: real, ma5: Option<real>, ma10: Option<real>, ma20: Option<real>): (t: Trend)
    ensures t == Up <==> Gt(Some(close), ma5) && Gt(ma5, ma10) && Gt(ma10, ma20)
    ensures t == Down <==> Lt(Some(close), ma5) && Lt(ma5, ma10) && Lt(ma10, ma20)
  {
    if Gt(Some(close), ma5) && Gt(ma5, ma10) && Gt(ma10, ma20) then Up
    else if Lt(Some(close), ma5) && Lt(ma5, ma10) && Lt(ma10, ma20) then Down
    else Sideways
  }

  /** Σ i over the first n indices. */
  function SumX(n: nat): real
  {
    if n == 0 then 0.0 else SumX(n - 1) + (n - 1) as real
  }

  /** Σ i² over the first n indices. */
  function SumXX(n: nat): real
  {
    if n == 0 then 0.0 else SumXX(n - 1) + (n - 1) as real * (n - 1) as real
  }

  /** Σ i·y[i]. */
  function SumXY(y: seq<real>): real
  {
    if |y| == 0 then 0.0 else SumXY(y[..|y| - 1]) + (|y| - 1) as real * y[|y| - 1]
  }

  lemma {:induction false} SumXClosed(n: nat)
    ensures 2.0 * SumX(n) == n as real * (n as real - 1.0)
  {
    if n > 0 {
      SumXClosed(n - 1);
    }
  }

  lemma {:induction false} SumXXClosed(n: nat)
    ensures 6.0 * SumXX(n) == n as real * (n as real - 1.0) * (2.0 * n as real - 1.0)
  {
    if n > 0 {
      SumXXClosed(n - 1);
      var m := (n - 1) as real;
      assert 6.0 * SumXX(n - 1) == m * (m - 1.0) * (2.0 * m - 1.0);
      assert n as real == m + 1.0;
      assert 6.0 * SumXX(n) == m * (m - 1.0) * (2.0 * m - 1.0) + 6.0 * m * m;
      assert m * (m - 1.0) * (2.0 * m - 1.0) + 6.0 * m * m == (m + 1.0) * m * (2.0 * m + 1.0);
    }
  }

  /** The least-squares denominator n·Σx² − (Σx)², equal to n²(n²−1)/12. */
  function SlopeDenominator(n: nat): real
  {
    n as real * SumXX(n) - SumX(n) * SumX(n)
  }

  lemma SlopeDenominatorPositive(n: nat)
    requires n >= 2
    ensures SlopeDenominator(n) > 0.0
  {
    SumXClosed(n);
    SumXXClosed(n);
    var r := n as real;
    assert 12.0 * SlopeDenominator(n) == 2.0 * r * (6.0 * SumXX(n)) - 3.0 * (2.0 * SumX(n)) * (2.0 * SumX(n));
    assert 12.0 * SlopeDenominator(n) == 2.0 * r * (r * (r - 1.0) * (2.0 * r - 1.0)) - 3.0 * (r * (r - 1.0)) * (r * (r - 1.0));
    assert 12.0 * SlopeDenominator(n) == r * r * (r - 1.0) * (r + 1.0);
    assert r * r > 0.0 && (r - 1.0) * (r + 1.0) > 0.0;
  }

  /** The least-squares slope of the closes against their indices; the
    * source divides without a guard, so two or more closes are needed. */
  function Slope(y: seq<real>): real
    requires |y| >= 2
  {
    SlopeDenominatorPositive(|y|);
    (|y| as real * SumXY(y) - SumX(|y|) * Sum(y)) / SlopeDenominator(|y|)
  }

  lemma {:induction false} SumXYOfConstant(y: seq<real>, c: real)
    requires forall i :: 0 <= i < |y| ==> y[i] == c
    ensures SumXY(y) == c * SumX(|y|)
  {
    if |y| > 0 {
      SumXYOfConstant(y[..|y| - 1], c);
    }
  }

  /** A flat series has slope 0. */
  lemma SlopeOfConstant(y: seq<real>, c: real)
    requires |y| >= 2
    requires forall i :: 0 <= i < |y| ==> y[i] == c
    ensures Slope(y) == 0.0
  {
    SumXYOfConstant(y, c);
    SumConstant(y, c);
    SlopeDenominatorPositive(|y|);
    var n := |y| as real;
    assert n * (c * SumX(|y|)) - SumX(|y|) * (n * c) == 0.0;
  }

  /** Strength of the trend over the last 20 closes: |slope|·100, boosted by
    * 1.2 when the slope agrees with the trend, capped at 100. With fewer
    * than two closes the source computes 0/0, the NaN modelled as `None`. */
  function TrendStrength(prices: seq<real>, trend: Trend): (r: Option<real>)
    ensures r.None? <==> |prices| < 2
    ensures r.Some? ==> 0.0 <= r.value <= 100.0
    ensures r.Some? ==>
      var s := Slope(TakeLast(prices, StrengthWindow));
      r.value == Min(Abs(s) * 100.0 * (if (trend == Up && s > 0.0) || (trend == Down && s < 0.0) then 1.2 else 1.0), 100.0)
  {
    var recent := TakeLast(prices, StrengthWindow);
    if |recent| < 2 then None
    else
      var slope := Slope(recent);
      var strength := Abs(slope) * 100.0;
      var boosted := if (trend == Up && slope > 0.0) || (trend == Down && slope < 0.0) then strength * 1.2 else strength;
      Some(Min(boosted, 100.0))
  }

  /** A flat recent history has zero strength whatever the trend label. */
  lemma TrendStrengthOfConstant(prices: seq<real>, c: real, trend: Trend)
    requires |prices| >= 2
    requires forall i :: 0 <= i < |prices| ==> prices[i] == c
    ensures TrendStrength(prices, trend) == Some(0.0)
  {
    var recent := TakeLast(prices, StrengthWindow);
    SlopeOfConstant(recent, c);
  }

  /** 95% of the lowest of the last 60 closes. */
  function Support(prices: seq<real>): (r: real)
    requires |prices| > 0
    ensures forall i :: 0 <= i < |TakeLast(prices, LevelWindow)| ==> r <= 0.95 * TakeLast(prices, LevelWindow)[i]
    ensures exists i :: 0 <= i < |TakeLast(prices, LevelWindow)| && r == 0.95 * TakeLast(prices, LevelWindow)[i]
  {
    var recent := TakeLast(prices, LevelWindow);
    SeqMinMaxBound(recent);
    SeqMinMaxMember(recent);
    SeqMin(recent) * 0.95
  }

  /** 105% of the highest of the last 60 closes. */
  function Resistance(prices: seq<real>): (r: real)
    requires |prices| > 0
    ensures forall i :: 0 <= i < |TakeLast(prices, LevelWindow)| ==> r >= 1.05 * TakeLast(prices, LevelWindow)[i]
    ensures exists i :: 0 <= i < |TakeLast(prices, LevelWindow)| && r == 1.05 * TakeLast(prices, LevelWindow)[i]
  {
    var recent := TakeLast(prices, LevelWindow);
    SeqMinMaxBound(recent);
    SeqMinMaxMember(recent);
    SeqMax(recent) * 1.05
  }

  /** For positive prices the support lies strictly below the resistance. */
  lemma SupportBelowResistance(prices: seq<real>)
    requires |prices| > 0
    requires forall i :: 0 <= i < |prices| ==> prices[i] > 0.0
    ensures Support(prices) < Resistance(prices)
  {
    var recent := TakeLast(prices, LevelWindow);
    assert recent[0] > 0.0;
    assert Support(prices) <= 0.95 * recent[0];
    assert Resistance(prices) >= 1.05 * recent[0];
  }

  // ---------------------------------------------------------------------
  // Signals

  predicate MacdGoldenCross(m: Macd) { m.value > m.signal && m.histogram > 0.0 }
  predicate MacdDeathCross(m: Macd) { m.value < m.signal && m.histogram < 0.0 }

  /** The signal of the MACD rule, if any. */
  function MacdSignal(m: Macd): Option<Signal>
  {
    if MacdGoldenCross(m) then Some(Signal(Buy, Medium, "MACD金叉，建议关注"))
    else if MacdDeathCross(m) then Some(Signal(Sell, Medium, "MACD死叉，注意风险"))
    else None
  }

  /** The signal of the RSI rule, if any (an undefined RSI fires nothing). */
  function RsiSignal(rsi: Option<real>): Option<Signal>
  {
    if rsi.Some? && rsi.value < 30.0 then Some(Signal(Buy, Strong, "RSI超卖，可能反弹"))
    else if rsi.Some? && rsi.value > 70.0 then Some(Signal(Sell, Strong, "RSI超买，注意回调"))
    else None
  }

  /** The signal of the moving-average alignment rule, if any. */
  function AlignmentSignal(close: real, ma5: Option<real>, ma10: Option<real>, ma20: Option<real>): Option<Signal>
  {
    if Gt(Some(close), ma5) && Gt(ma5, ma10) && Gt(ma10, ma20) then Some(Signal(Buy, Strong, "均线多头排列，趋势向上"))
    else if Lt(Some(close), ma5) && Lt(ma5, ma10) && Lt(ma10, ma20) then Some(Signal(Sell, Strong, "均线空头排列，趋势向下"))
    else None
  }

  function OptionToSeq<T>(o: Option<T>): (r: seq<T>)
    ensures |r| <= 1 && (r == [] <==> o.None?)
  {
    if o.Some? then [o.value] else []
  }

  /** The three rules run in order, each adding at most one signal. */
  method GenerateSignals(close: real, ind: Indicators) returns (signals: seq<Signal>)
    ensures |signals| <= 3
    ensures signals == OptionToSeq(MacdSignal(ind.macd)) + OptionToSeq(RsiSignal(ind.rsi))
      + OptionToSeq(AlignmentSignal(close, ind.ma5, ind.ma10, ind.ma20))
  {
    signals := [];
    if ind.macd.value > ind.macd.signal && ind.macd.histogram > 0.0 {
      signals := signals + [Signal(Buy, Medium, "MACD金叉，建议关注")];
    } else if ind.macd.value < ind.macd.signal && ind.macd.histogram < 0.0 {
      signals := signals + [Signal(Sell, Medium, "MACD死叉，注意风险")];
    }
    ghost var macd := signals;
    assert macd == OptionToSeq(MacdSignal(ind.macd));
    if ind.rsi.Some? && ind.rsi.value < 30.0 {
      signals := signals + [Signal(Buy, Strong, "RSI超卖，可能反弹")];
    } else if ind.rsi.Some? && ind.rsi.value > 70.0 {
      signals := signals + [Signal(Sell, Strong, "RSI超买，注意回调")];
    }
    ghost var withRsi := signals;
    assert withRsi == macd + OptionToSeq(RsiSignal(ind.rsi));
    if Gt(Some(close), ind.ma5) && Gt(ind.ma5, ind.ma10) && Gt(ind.ma10, ind.ma20) {
      signals := signals + [Signal(Buy, Strong, "均线多头排列，趋势向上")];
    } else if Lt(Some(close), ind.ma5) && Lt(ind.ma5, ind.ma10) && Lt(ind.ma10, ind.ma20) {
      signals := signals + [Signal(Sell, Strong, "均线空头排列，趋势向下")];
    }
  }

  /** The alignment rule and the trend label agree: a buy exactly on an up
    * trend, a sell exactly on a down trend. */
  lemma AlignmentMatchesTrend(close: real, ma5: Option<real>, ma10: Option<real>, ma20: Option<real>)
    ensures AlignmentSignal(close, ma5, ma10, ma20).Some? <==> DetermineTrend(close, ma5, ma10, ma20) != Sideways
    ensures AlignmentSignal(close, ma5, ma10, ma20).Some? ==>
      (AlignmentSignal(close, ma5, ma10, ma20).value.kind == Buy <==> DetermineTrend(close, ma5, ma10, ma20) == Up)
  {
  }

  /** No rule ever yields both a buy and a sell. */
  lemma RulesNeverConflict(m: Macd, rsi: Option<real>)
    ensures MacdSignal(m).Some? ==> (MacdSignal(m).value.kind == Buy <==> MacdGoldenCross(m))
    ensures MacdSignal(m).Some? ==> (MacdSignal(m).value.kind == Sell <==> !MacdGoldenCross(m) && MacdDeathCross(m))
    ensures RsiSignal(rsi).Some? ==> (RsiSignal(rsi).value.kind == Buy <==> rsi.value < 30.0)
  {
  }

  // ---------------------------------------------------------------------
  // The whole analysis

  /** What every report satisfies: a strength is present whenever the trend
    * is up or down, and it lies in [0, 100]. */
  predicate WellFormed(t: TechnicalReport)
  {
    (t.trend != Sideways ==> t.strength.Some?) &&
    (t.strength.Some? ==> 0.0 <= t.strength.value <= 100.0)
  }

  /** The last element of a moving-average array, `undefined` when the
    * history is shorter than the period. */
  function LatestMA(closes: seq<real>, period: nat): (r: Option<real>)
    requires period >= 1
    ensures r.Some? <==> |closes| >= period
  {
    if |closes| >= period then Some(WindowMean(closes, |closes| - period, period)) else None
  }

  /** The MACD values at the last close. */
  function LatestMacd(closes: seq<real>): (m: Macd)
    requires |closes| > 0
    ensures m.histogram == m.value - m.signal
  {
    var line := MacdLine(closes);
    var signal := EmaAt(line, Multiplier(9), |closes| - 1);
    Macd(line[|closes| - 1], signal, line[|closes| - 1] - signal)
  }

  /** The RSI of the last `RsiPeriod` changes, once there are that many. */
  function LatestRsi(closes: seq<real>): (r: Option<real>)
    ensures r.Some? <==> |closes| > RsiPeriod
  {
    if |closes| > RsiPeriod then Some(RsiAt(closes, |closes| - RsiPeriod - 1)) else None
  }

  /** The KDJ entry of the last close, once a full window exists. */
  function LatestKdj(closes: seq<real>): (r: Option<Option<Kdj>>)
    ensures r.Some? <==> |closes| >= KdjPeriod
  {
    if |closes| >= KdjPeriod then Some(KdjAt(closes, |closes| - 1)) else None
  }

  /** The bands of the last `BollPeriod` closes, once there are that many. */
  function LatestBoll(closes: seq<real>, sqrt: real -> real): (r: Option<Bollinger>)
    ensures r.Some? <==> |closes| >= BollPeriod
  {
    if |closes| >= BollPeriod then Some(BandsAt(closes, |closes| - BollPeriod, sqrt)) else None
  }

  /** The last entry of every indicator array, as the report reads them. */
  function LatestIndicators(closes: seq<real>, sqrt: real -> real): (ind: Indicators)
    requires |closes| > 0
    ensures ind.ma20.Some? <==> |closes| >= 20
    ensures ind.rsi.Some? <==> |closes| > RsiPeriod
    ensures ind.kdj.Some? <==> |closes| >= KdjPeriod
    ensures ind.boll.Some? <==> |closes| >= BollPeriod
  {
    Indicators(
      LatestMA(closes, 5), LatestMA(closes, 10), LatestMA(closes, 20),
      LatestMA(closes, 60), LatestMA(closes, 120), LatestMA(closes, 250),
      LatestMacd(closes), LatestRsi(closes), LatestKdj(closes), LatestBoll(closes, sqrt))
  }

  /** The last entry of an array `CalculateMA` returned is the latest
    * moving average. */
  lemma LastOfMA(closes: seq<real>, period: nat, ma: seq<real>)
    requires period >= 1
    requires |ma| == if |closes| >= period then |closes| - period + 1 else 0
    requires forall j :: 0 <= j < |ma| ==> ma[j] == WindowMean(closes, j, period)
    ensures Last(ma) == LatestMA(closes, period)
  {
  }

  /** The last MACD entry is the latest MACD indicator. */
  lemma LastOfMacd(closes: seq<real>, macd: seq<Macd>)
    requires |closes| > 0 && |macd| == |closes|
    requires forall i :: 0 <= i < |macd| ==>
      macd[i].value == MacdLine(closes)[i] &&
      macd[i].signal == EmaAt(MacdLine(closes), Multiplier(9), i) &&
      macd[i].histogram == macd[i].value - macd[i].signal
    ensures macd[|macd| - 1] == LatestMacd(closes)
  {
  }

  /** The last KDJ entry, when there is one, is the latest KDJ indicator. */
  lemma LastOfKdj(closes: seq<real>, kdj: seq<Option<Kdj>>)
    requires |kdj| == if |closes| >= KdjPeriod then |closes| - KdjPeriod + 1 else 0
    requires forall m :: 0 <= m < |kdj| ==> m + KdjPeriod - 1 < |closes| && kdj[m] == KdjAt(closes, m + KdjPeriod - 1)
    ensures Last(kdj) == LatestKdj(closes)
  {
    if |closes| >= KdjPeriod {
      var m := |kdj| - 1;
      assert m + KdjPeriod - 1 == |closes| - 1;
      assert Last(kdj) == Some(kdj[m]);
    } else {
      assert kdj == [];
    }
  }

  /** The last band entry, when there is one, is the latest Bollinger indicator. */
  lemma LastOfBoll(closes: seq<real>, sqrt: real -> real, boll: seq<Bollinger>)
    requires |boll| == if |closes| >= BollPeriod then |closes| - BollPeriod + 1 else 0
    requires forall j :: 0 <= j < |boll| ==> j + BollPeriod <= |closes| && boll[j] == BandsAt(closes, j, sqrt)
    ensures Last(boll) == LatestBoll(closes, sqrt)
  {
  }

  /** Runs `CalculateMA` and keeps its last entry. */
  method LatestMAOf(closes: seq<real>, period: nat) returns (m: Option<real>)
    requires period >= 1
    ensures m == LatestMA(closes, period)
  {
    var ma := CalculateMA(closes, period);
    LastOfMA(closes, period, ma);
    m := Last(ma);
  }

  /** Runs `CalculateMACD` and keeps its last entry. */
  method LatestMacdOf(closes: seq<real>) returns (m: Macd)
    requires |closes| > 0
    ensures m == LatestMacd(closes)
  {
    var macd := CalculateMACD(closes);
    LastOfMacd(closes, macd);
    m := macd[|macd| - 1];
  }

  /** Runs `CalculateRSI` and keeps its last entry. */
  method LatestRsiOf(closes: seq<real>) returns (r: Option<real>)
    ensures r == LatestRsi(closes)
  {
    var rsi := CalculateRSI(closes);
    if |closes| > RsiPeriod {
      assert rsi[|rsi| - 1] == RsiAt(closes, |closes| - RsiPeriod - 1);
    }
    r := Last(rsi);
  }

  /** Runs `CalculateKDJ` and keeps its last entry. */
  method LatestKdjOf(closes: seq<real>) returns (k: Option<Option<Kdj>>)
    ensures k == LatestKdj(closes)
  {
    var kdj := CalculateKDJ(closes);
    LastOfKdj(closes, kdj);
    k := Last(kdj);
  }

  /** Runs `CalculateBollingerBands` and keeps its last entry. */
  method LatestBollOf(closes: seq<real>, sqrt: real -> real) returns (b: Option<Bollinger>)
    ensures b == LatestBoll(closes, sqrt)
  {
    var boll := CalculateBollingerBands(closes, sqrt);
    LastOfBoll(closes, sqrt, boll);
    b := Last(boll);
  }

  /** Runs every indicator calculation over the history and keeps the
    * latest value of each. */
  method LatestIndicatorsOf(closes: seq<real>, sqrt: real -> real) returns (ind: Indicators)
    requires |closes| > 0
    ensures ind == LatestIndicators(closes, sqrt)
  {
    var ma5 := LatestMAOf(closes, 5);
    var ma10 := LatestMAOf(closes, 10);
    var ma20 := LatestMAOf(closes, 20);
    var ma60 := LatestMAOf(closes, 60);
    var ma120 := LatestMAOf(closes, 120);
    var ma250 := LatestMAOf(closes, 250);
    var macd := LatestMacdOf(closes);
    var rsi := LatestRsiOf(closes);
    var kdj := LatestKdjOf(closes);
    var boll := LatestBollOf(closes, sqrt);
    ind := Indicators(ma5, ma10, ma20, ma60, ma120, ma250, macd, rsi, kdj, boll);
  }

  /** The report built from a non-empty history and its latest indicators:
    * the trend of the last close against the 5-, 10- and 20-day averages,
    * its strength, the support and resistance levels, and the MACD, RSI and
    * alignment signals in that order. */
  function ReportFrom(closes: seq<real>, ind: Indicators): (t: TechnicalReport)
    requires |closes| > 0
    ensures t.indicators == ind
    ensures t.trend == DetermineTrend(closes[|closes| - 1], ind.ma5, ind.ma10, ind.ma20)
    ensures t.signals == OptionToSeq(MacdSignal(ind.macd)) + OptionToSeq(RsiSignal(ind.rsi))
      + OptionToSeq(AlignmentSignal(closes[|closes| - 1], ind.ma5, ind.ma10, ind.ma20))
    ensures t.strength.None? <==> |closes| < 2
    ensures t.strength.Some? ==> 0.0 <= t.strength.value <= 100.0
    ensures |t.signals| <= 3
  {
    var close := closes[|closes| - 1];
    var trend := DetermineTrend(close, ind.ma5, ind.ma10, ind.ma20);
    TechnicalReport(trend, TrendStrength(closes, trend), Support(closes), Resistance(closes), ind,
      OptionToSeq(MacdSignal(ind.macd)) + OptionToSeq(RsiSignal(ind.rsi))
      + OptionToSeq(AlignmentSignal(close, ind.ma5, ind.ma10, ind.ma20)))
  }

  /** Every report on real indicators is well formed: an up or down trend
    * needs a 5-day average, hence at least five closes, hence a strength. */
  lemma ReportWellFormed(closes: seq<real>, sqrt: real -> real)
    requires |closes| > 0
    ensures WellFormed(ReportFrom(closes, LatestIndicators(closes, sqrt)))
  {
    var ind := LatestIndicators(closes, sqrt);
    if DetermineTrend(closes[|closes| - 1], ind.ma5, ind.ma10, ind.ma20) != Sideways {
      assert ind.ma5.Some?;
    }
  }

  /** Fails on an empty history; otherwise the report is built from the
    * latest indicators. */
  method GetTechnicalAnalysis(closes: seq<real>, sqrt: real -> real) returns (r: Result<TechnicalReport>)
    ensures r.Failure? <==> |closes| == 0
    ensures r.Success? ==> r.value == ReportFrom(closes, LatestIndicators(closes, sqrt))
    ensures r.Success? ==> WellFormed(r.value)
  {
    if |closes| == 0 {
      return Failure("历史数据不足");
    }
    var current := closes[|closes| - 1];
    var ind := LatestIndicatorsOf(closes, sqrt);
    var trend := DetermineTrend(current, ind.ma5, ind.ma10, ind.ma20);
    var strength := TrendStrength(closes, trend);
    var signals := GenerateSignals(current, ind);
    r := Success(TechnicalReport(trend, strength, Support(closes), Resistance(closes), ind, signals));
  }
}
