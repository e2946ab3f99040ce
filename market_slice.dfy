// The market slice of the front-end store: quotes keyed by stock code, the
// index list, the time of the last update, and the loading and error flags.

module MarketSlice {
  import opened Util
  import opened Store

  datatype Quote = Quote(
    code: string, name: string, price: real, change: real, changeRate: real,
    volume: real, turnover: real, high: real, low: real, open: real, prevClose: real,
    timestamp: int)

  datatype MarketIndex = MarketIndex(code: string, name: string, value: real, change: real, changeRate: real)

  /** The slice's state; `lastUpdate` is `None` until the first update. */
  datatype Market = Market(
    quotes: map<string, Quote>, indices: seq<MarketIndex>, loading: bool,
    error: Option<string>, lastUpdate: Option<int>)

  const QuotesFailed := "获取行情失败"

  /** The quotes after `quotes[q.code] = q` for each `q` of `qs`, in order. */
  function Merged(quotes: map<string, Quote>, qs: seq<Quote>): map<string, Quote>
  {
    if |qs| == 0 then quotes
    else Merged(quotes, qs[..|qs| - 1])[qs[|qs| - 1].code := qs[|qs| - 1]]
  }

  /** After merging, the codes are the old ones plus the incoming ones. */
  lemma {:induction false} MergedKeys(quotes: map<string, Quote>, qs: seq<Quote>)
    ensures forall k :: k in Merged(quotes, qs) <==> k in quotes || exists i :: 0 <= i < |qs| && qs[i].code == k
  {
    if |qs| > 0 {
      var init, last := qs[..|qs| - 1], qs[|qs| - 1];
      MergedKeys(quotes, init);
      forall k | k in quotes || exists i :: 0 <= i < |qs| && qs[i].code == k
        ensures k in Merged(quotes, qs)
      {
        if k != last.code && k !in quotes {
          var i :| 0 <= i < |qs| && qs[i].code == k;
          assert init[i].code == k;
        }
      }
      forall k | k in Merged(quotes, qs) && k !in quotes
        ensures exists i :: 0 <= i < |qs| && qs[i].code == k
      {
        if k != last.code {
          var i :| 0 <= i < |init| && init[i].code == k;
          assert qs[i].code == k;
        } else {
          assert qs[|qs| - 1].code == k;
        }
      }
    }
  }

  /** A code's quote is the last incoming quote with that code. */
  lemma MergedLatest(quotes: map<string, Quote>, qs: seq<Quote>)
    ensures forall i :: 0 <= i < |qs| && (forall j :: i < j < |qs| ==> qs[j].code != qs[i].code) ==>
      qs[i].code in Merged(quotes, qs) && Merged(quotes, qs)[qs[i].code] == qs[i]
  {
    forall i | 0 <= i < |qs| && (forall j :: i < j < |qs| ==> qs[j].code != qs[i].code)
      ensures qs[i].code in Merged(quotes, qs) && Merged(quotes, qs)[qs[i].code] == qs[i]
    {
      MergedLatestAt(quotes, qs, i);
    }
  }

  lemma {:induction false} MergedLatestAt(quotes: map<string, Quote>, qs: seq<Quote>, i: nat)
    requires i < |qs| && forall j :: i < j < |qs| ==> qs[j].code != qs[i].code
    ensures qs[i].code in Merged(quotes, qs) && Merged(quotes, qs)[qs[i].code] == qs[i]
  {
    if i < |qs| - 1 {
      var init := qs[..|qs| - 1];
      assert qs[|qs| - 1].code != qs[i].code;
      forall j | i < j < |init| ensures init[j].code != init[i].code {
        assert init[j] == qs[j];
      }
      MergedLatestAt(quotes, init, i);
    }
  }

  /** A code no incoming quote names keeps its old quote. */
  lemma {:induction false} MergedUntouched(quotes: map<string, Quote>, qs: seq<Quote>)
    ensures forall k :: k in quotes && (forall i :: 0 <= i < |qs| ==> qs[i].code != k) ==>
      k in Merged(quotes, qs) && Merged(quotes, qs)[k] == quotes[k]
  {
    if |qs| > 0 {
      var init := qs[..|qs| - 1];
      MergedUntouched(quotes, init);
      forall k | k in quotes && (forall i :: 0 <= i < |qs| ==> qs[i].code != k)
        ensures Merged(quotes, qs)[k] == quotes[k]
      {
        assert forall i :: 0 <= i < |init| ==> init[i] == qs[i];
      }
    }
  }

  /** Merging the same batch twice is merging it once. */
  lemma MergedTwice(quotes: map<string, Quote>, qs: seq<Quote>)
    ensures Merged(Merged(quotes, qs), qs) == Merged(quotes, qs)
  {
    var once := Merged(quotes, qs);
    MergedKeys(quotes, qs);
    MergedKeys(once, qs);
    MergedLatest(quotes, qs);
    MergedLatest(once, qs);
    MergedUntouched(once, qs);
    var twice := Merged(once, qs);
    forall k | k in twice ensures k in once && twice[k] == once[k]
    {
      if exists i :: 0 <= i < |qs| && qs[i].code == k {
        var i := LastWith(qs, k);
        assert twice[qs[i].code] == qs[i];
        assert once[qs[i].code] == qs[i];
      }
    }
  }

  /** The last index of a quote with code `k`. */
  lemma LastWith(qs: seq<Quote>, k: string) returns (i: nat)
    requires exists i :: 0 <= i < |qs| && qs[i].code == k
    ensures i < |qs| && qs[i].code == k && forall j :: i < j < |qs| ==> qs[j].code != k
  {
    var n := |qs| - 1;
    while qs[n].code != k
      invariant 0 <= n < |qs|
      invariant exists i :: 0 <= i <= n && qs[i].code == k
      invariant forall j :: n < j < |qs| ==> qs[j].code != k
      decreases n
    {
      n := n - 1;
    }
    i := n;
  }

  class MarketStore {
    var quotes: map<string, Quote>
    var indices: seq<MarketIndex>
    var loading: bool
    var error: Option<string>
    var lastUpdate: Option<int>

    function State(): Market
      reads this
    {
      Market(quotes, indices, loading, error, lastUpdate)
    }

    /** The initial state: no quotes, no indices, idle, never updated. */
    constructor()
      ensures State() == Market(map[], [], false, None, None)
    {
      quotes := map[];
      indices := [];
      loading := false;
      error := None;
      lastUpdate := None;
    }

    /** `updateQuote` at clock time `now`. */
    method UpdateQuote(q: Quote, now: int)
      modifies this
      ensures State() == old(State()).(quotes := old(quotes)[q.code := q], lastUpdate := Some(now))
    {
      quotes := quotes[q.code := q];
      lastUpdate := Some(now);
    }

    /** The `forEach` writing each quote under its code. */
    method Merge(qs: seq<Quote>)
      modifies this
      ensures State() == old(State()).(quotes := Merged(old(quotes), qs))
    {
      for i := 0 to |qs|
        invariant quotes == Merged(old(quotes), qs[..i])
        invariant indices == old(indices) && loading == old(loading)
        invariant error == old(error) && lastUpdate == old(lastUpdate)
      {
        assert qs[..i + 1][..i] == qs[..i];
        quotes := quotes[qs[i].code := qs[i]];
      }
      assert qs[..|qs|] == qs;
    }

    /** `updateQuotes` at clock time `now`. */
    method UpdateQuotes(qs: seq<Quote>, now: int)
      modifies this
      ensures State() == old(State()).(quotes := Merged(old(quotes), qs), lastUpdate := Some(now))
    {
      Merge(qs);
      lastUpdate := Some(now);
    }

    /** `clearError`. */
    method ClearError()
      modifies this
      ensures State() == old(State()).(error := None)
    {
      error := None;
    }

    /** `fetchStockQuotes.pending`. */
    method QuotesPending()
      modifies this
      ensures State() == old(State()).(loading := true, error := None)
    {
      loading := true;
      error := None;
    }

    /** `fetchStockQuotes.fulfilled` at clock time `now`. */
    method QuotesFulfilled(payload: Payload<seq<Quote>>, now: int)
      modifies this
      ensures State() == old(State()).(loading := false, quotes := Merged(old(quotes), Unwrap(payload)), lastUpdate := Some(now))
    {
      loading := false;
      Merge(if payload.Enveloped? then payload.data else payload.value);
      lastUpdate := Some(now);
    }

    /** `fetchStockQuotes.rejected`. */
    method QuotesRejected(message: Option<string>)
      modifies this
      ensures State() == old(State()).(loading := false, error := Some(ErrorText(message, QuotesFailed)))
    {
      loading := false;
      error := Some(if message.Some? && message.value != "" then message.value else QuotesFailed);
    }

    /** `fetchMarketIndices.fulfilled`: the fetched list replaces the
      * indices. */
    method IndicesFulfilled(payload: Payload<seq<MarketIndex>>)
      modifies this
      ensures State() == old(State()).(indices := Unwrap(payload))
    {
      indices := if payload.Enveloped? then payload.data else payload.value;
    }
  }
}
