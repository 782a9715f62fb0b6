/**
 * The decoded chart payload and what Load and LoadMatrix make of it once it is
 * decoded: metadata, and the samples with positive volume, flattened in
 * result, quote block, index order.
 */
module Chart {

  /** A float64, kept as its 64 bits: the projection only copies such values. */
  datatype Float64 = Float64(bits: bv64)

  const Zero: Float64 := Float64(0)

  datatype Meta = Meta(
    currency: string,
    symbol: string,
    exchangeName: string,
    regularMarketPrice: Float64,
    dataGranularity: string,
    range: string)

  /** The zero MetaData value Go starts from. */
  const ZeroMeta: Meta := Meta("", "", "", Zero, "", "")

  /** One quote block: parallel arrays meant to be aligned by index. */
  datatype Quote = Quote(open: seq<Float64>, high: seq<Float64>, low: seq<Float64>, close: seq<Float64>, volume: seq<int>)

  datatype ChartResult = ChartResult(meta: Meta, timestamps: seq<int>, quotes: seq<Quote>)

  /** ChartData after decoding: chart.result. */
  datatype ChartData = ChartData(results: seq<ChartResult>)

  datatype Candle = Candle(timestamp: string, open: Float64, high: Float64, low: Float64, close: Float64, volume: int)

  /** time.Unix(t, 0).Format("2006-01-02 15:04"), in the local zone. */
  type Formatter = int -> string

  // ---------------------------------------------------------------------------
  // Kept samples of one quote block.

  /** The indices below n whose volume is positive, in increasing order. */
  function Kept(volume: seq<int>, n: nat): seq<nat>
    requires n <= |volume|
  {
    if n == 0 then []
    else Kept(volume, n - 1) + (if volume[n - 1] > 0 then [n - 1] else [])
  }

  lemma {:induction false} KeptExactly(volume: seq<int>, n: nat)
    requires n <= |volume|
    ensures |Kept(volume, n)| <= n
    ensures forall i: nat :: i in Kept(volume, n) <==> i < n && volume[i] > 0
    ensures forall a, b :: 0 <= a < b < |Kept(volume, n)| ==> Kept(volume, n)[a] < Kept(volume, n)[b]
  {
    if n > 0 {
      KeptExactly(volume, n - 1);
      var ks := Kept(volume, n - 1);
      if volume[n - 1] > 0 {
        var ks' := ks + [n - 1];
        assert Kept(volume, n) == ks';
        forall a, b | 0 <= a < b < |ks'|
          ensures ks'[a] < ks'[b]
        {
          if b == |ks| {
            assert ks[a] in ks;
          }
        }
      } else {
        assert Kept(volume, n) == ks;
      }
    }
  }

  /** The k-th kept index is at least k. */
  lemma {:induction false} KeptAtLeastPosition(volume: seq<int>, n: nat, k: nat)
    requires n <= |volume| && k < |Kept(volume, n)|
    ensures Kept(volume, n)[k] >= k
  {
    KeptExactly(volume, n - 1);
    if k < |Kept(volume, n - 1)| {
      KeptAtLeastPosition(volume, n - 1, k);
    }
  }

  // ---------------------------------------------------------------------------
  // When Load does not panic.

  /** Load reads Volume[i] for every i below len(Open). */
  predicate Covers(q: Quote) {
    |q.volume| >= |q.open|
  }

  /** Every index Load reads in this quote block exists: Volume for all samples, the rest for kept ones. */
  predicate QuoteInBounds(ts: seq<int>, q: Quote) {
    Covers(q) &&
    forall i :: 0 <= i < |q.open| && q.volume[i] > 0 ==>
      i < |ts| && i < |q.high| && i < |q.low| && i < |q.close|
  }

  predicate ResultInBounds(r: ChartResult) {
    forall j :: 0 <= j < |r.quotes| ==> QuoteInBounds(r.timestamps, r.quotes[j])
  }

  /** Load runs to completion on these results exactly when this holds. */
  predicate LoadInBounds(results: seq<ChartResult>) {
    forall j :: 0 <= j < |results| ==> ResultInBounds(results[j])
  }

  /** The simple sufficient condition: all arrays at least as long as Open. */
  predicate Aligned(results: seq<ChartResult>) {
    forall j, k :: 0 <= j < |results| && 0 <= k < |results[j].quotes| ==>
      var q := results[j].quotes[k];
      |q.volume| >= |q.open| && |results[j].timestamps| >= |q.open| &&
      |q.high| >= |q.open| && |q.low| >= |q.open| && |q.close| >= |q.open|
  }

  lemma AlignedIsInBounds(results: seq<ChartResult>)
    requires Aligned(results)
    ensures LoadInBounds(results)
  {
  }

  // ---------------------------------------------------------------------------
  // Load's projection.

  function CandleAt(ts: seq<int>, q: Quote, i: nat, format: Formatter): Candle
    requires i < |ts| && i < |q.open| && i < |q.high| && i < |q.low| && i < |q.close| && i < |q.volume|
  {
    Candle(format(ts[i]), q.open[i], q.high[i], q.low[i], q.close[i], q.volume[i])
  }

  /** The candles of the first n samples of a quote block. */
  function QuoteCandles(ts: seq<int>, q: Quote, n: nat, format: Formatter): seq<Candle>
    requires QuoteInBounds(ts, q) && n <= |q.open|
  {
    if n == 0 then []
    else QuoteCandles(ts, q, n - 1, format)
         + (if q.volume[n - 1] > 0 then [CandleAt(ts, q, n - 1, format)] else [])
  }

  /** The candles of the first nq quote blocks of a result. */
  function ResultCandles(r: ChartResult, nq: nat, format: Formatter): seq<Candle>
    requires ResultInBounds(r) && nq <= |r.quotes|
  {
    if nq == 0 then []
    else ResultCandles(r, nq - 1, format) + QuoteCandles(r.timestamps, r.quotes[nq - 1], |r.quotes[nq - 1].open|, format)
  }

  /** The candles Load returns for these results. */
  function Candles(results: seq<ChartResult>, format: Formatter): seq<Candle>
    requires LoadInBounds(results)
  {
    if |results| == 0 then []
    else
      var last := results[|results| - 1];
      Candles(results[..|results| - 1], format) + ResultCandles(last, |last.quotes|, format)
  }

  /** The metadata Load returns: that of the last result, or the zero value. */
  function LastMeta(results: seq<ChartResult>): Meta
  {
    if |results| == 0 then ZeroMeta else results[|results| - 1].meta
  }

  // ---------------------------------------------------------------------------
  // Reference: the positions of the kept samples.

  /** Sample i of quote block q of result r. */
  datatype Pos = Pos(r: nat, q: nat, i: nat)

  predicate AllCovered(results: seq<ChartResult>) {
    forall j, k :: 0 <= j < |results| && 0 <= k < |results[j].quotes| ==> Covers(results[j].quotes[k])
  }

  /** p names a sample of the payload whose volume is positive. */
  predicate IsKeptSample(results: seq<ChartResult>, p: Pos) {
    p.r < |results| && p.q < |results[p.r].quotes| &&
    p.i < |results[p.r].quotes[p.q].open| && p.i < |results[p.r].quotes[p.q].volume| &&
    results[p.r].quotes[p.q].volume[p.i] > 0
  }

  /** Result, then quote block, then index order. */
  predicate Before(p1: Pos, p2: Pos) {
    p1.r < p2.r || (p1.r == p2.r && (p1.q < p2.q || (p1.q == p2.q && p1.i < p2.i)))
  }

  predicate Ordered(ps: seq<Pos>) {
    forall a, b :: 0 <= a < b < |ps| ==> Before(ps[a], ps[b])
  }

  function QuotePositions(r: nat, q: nat, ks: seq<nat>): seq<Pos>
  {
    seq(|ks|, k requires 0 <= k < |ks| => Pos(r, q, ks[k]))
  }

  function ResultPositions(res: ChartResult, r: nat, nq: nat): seq<Pos>
    requires nq <= |res.quotes| && forall k :: 0 <= k < |res.quotes| ==> Covers(res.quotes[k])
  {
    if nq == 0 then []
    else
      var q := res.quotes[nq - 1];
      ResultPositions(res, r, nq - 1) + QuotePositions(r, nq - 1, Kept(q.volume, |q.open|))
  }

  /** The positions of the kept samples, in the order the loops visit them. */
  function Positions(results: seq<ChartResult>): seq<Pos>
    requires AllCovered(results)
  {
    if |results| == 0 then []
    else
      var last := results[|results| - 1];
      Positions(results[..|results| - 1]) + ResultPositions(last, |results| - 1, |last.quotes|)
  }

  /** The positions of one quote block are its kept samples, in index order. */
  lemma QuotePositionsExactly(r: nat, b: nat, q: Quote)
    requires Covers(q)
    ensures forall p :: p in QuotePositions(r, b, Kept(q.volume, |q.open|)) <==>
      p.r == r && p.q == b && p.i < |q.open| && q.volume[p.i] > 0
    ensures Ordered(QuotePositions(r, b, Kept(q.volume, |q.open|)))
  {
    var ks := Kept(q.volume, |q.open|);
    KeptExactly(q.volume, |q.open|);
    var qp := QuotePositions(r, b, ks);
    forall p | p in qp
      ensures p.r == r && p.q == b && p.i < |q.open| && q.volume[p.i] > 0
    {
      var k :| 0 <= k < |qp| && qp[k] == p;
      assert ks[k] in ks;
    }
    forall p: Pos | p.r == r && p.q == b && p.i < |q.open| && q.volume[p.i] > 0
      ensures p in qp
    {
      assert p.i in ks;
      var k :| 0 <= k < |ks| && ks[k] == p.i;
      assert qp[k] == p;
    }
  }

  lemma {:induction false} ResultPositionsExactly(res: ChartResult, r: nat, nq: nat)
    requires nq <= |res.quotes| && forall k :: 0 <= k < |res.quotes| ==> Covers(res.quotes[k])
    ensures forall p :: p in ResultPositions(res, r, nq) <==>
      p.r == r && p.q < nq && p.i < |res.quotes[p.q].open| && res.quotes[p.q].volume[p.i] > 0
    ensures Ordered(ResultPositions(res, r, nq))
  {
    if nq > 0 {
      var q := res.quotes[nq - 1];
      ResultPositionsExactly(res, r, nq - 1);
      QuotePositionsExactly(r, nq - 1, q);
      ConcatOrdered(ResultPositions(res, r, nq - 1), QuotePositions(r, nq - 1, Kept(q.volume, |q.open|)));
    }
  }

  lemma ConcatOrdered(xs: seq<Pos>, ys: seq<Pos>)
    requires Ordered(xs) && Ordered(ys)
    requires forall x, y :: x in xs && y in ys ==> Before(x, y)
    ensures Ordered(xs + ys)
  {
    forall a, b | 0 <= a < b < |xs + ys|
      ensures Before((xs + ys)[a], (xs + ys)[b])
    {
      if a < |xs| && b >= |xs| {
        assert (xs + ys)[a] in xs && (xs + ys)[b] in ys;
      }
    }
  }

  /** The positions are exactly the kept samples, each once, in result, quote block, index order. */
  lemma {:induction false} PositionsExactly(results: seq<ChartResult>)
    requires AllCovered(results)
    ensures forall p :: p in Positions(results) <==> IsKeptSample(results, p)
    ensures Ordered(Positions(results))
  {
    if |results| > 0 {
      var n := |results|;
      var pre := results[..n - 1];
      var last := results[n - 1];
      PositionsExactly(pre);
      ResultPositionsExactly(last, n - 1, |last.quotes|);
      forall p
        ensures p in Positions(results) <==> IsKeptSample(results, p)
      {
        if p.r < n - 1 {
          assert pre[p.r] == results[p.r];
          assert IsKeptSample(pre, p) <==> IsKeptSample(results, p);
        }
      }
      ConcatOrdered(Positions(pre), ResultPositions(last, n - 1, |last.quotes|));
    }
  }

  /** The candle of sample i of quote block qi of a result. */
  function SampleCandle(res: ChartResult, qi: nat, i: nat, format: Formatter): Candle
    requires ResultInBounds(res) && qi < |res.quotes|
    requires i < |res.quotes[qi].open| && res.quotes[qi].volume[i] > 0
  {
    assert QuoteInBounds(res.timestamps, res.quotes[qi]);
    CandleAt(res.timestamps, res.quotes[qi], i, format)
  }

  /** The candle Load builds for a kept sample. */
  function CandleOf(results: seq<ChartResult>, p: Pos, format: Formatter): Candle
    requires LoadInBounds(results) && IsKeptSample(results, p)
  {
    SampleCandle(results[p.r], p.q, p.i, format)
  }

  lemma {:induction false} QuoteCandlesFollowKept(ts: seq<int>, q: Quote, n: nat, format: Formatter)
    requires QuoteInBounds(ts, q) && n <= |q.open|
    ensures |QuoteCandles(ts, q, n, format)| == |Kept(q.volume, n)|
    ensures forall k :: 0 <= k < |Kept(q.volume, n)| ==>
      Kept(q.volume, n)[k] < |q.open| && q.volume[Kept(q.volume, n)[k]] > 0 &&
      QuoteCandles(ts, q, n, format)[k] == CandleAt(ts, q, Kept(q.volume, n)[k], format)
  {
    if n > 0 {
      QuoteCandlesFollowKept(ts, q, n - 1, format);
      var ks, ks' := Kept(q.volume, n), Kept(q.volume, n - 1);
      var cs, cs' := QuoteCandles(ts, q, n, format), QuoteCandles(ts, q, n - 1, format);
      forall k | 0 <= k < |ks|
        ensures ks[k] < |q.open| && q.volume[ks[k]] > 0 && cs[k] == CandleAt(ts, q, ks[k], format)
      {
        if k < |ks'| {
          assert ks[k] == ks'[k] && cs[k] == cs'[k];
        }
      }
    }
  }

  lemma {:induction false} ResultCandlesLength(res: ChartResult, r: nat, nq: nat, format: Formatter)
    requires ResultInBounds(res) && nq <= |res.quotes|
    ensures |ResultCandles(res, nq, format)| == |ResultPositions(res, r, nq)|
  {
    if nq > 0 {
      var q := res.quotes[nq - 1];
      ResultCandlesLength(res, r, nq - 1, format);
      assert QuoteInBounds(res.timestamps, q);
      QuoteCandlesFollowKept(res.timestamps, q, |q.open|, format);
    }
  }

  /** c is the candle Load builds for sample p of res. */
  predicate CandleReads(res: ChartResult, p: Pos, c: Candle, format: Formatter)
    requires ResultInBounds(res)
  {
    p.q < |res.quotes| && p.i < |res.quotes[p.q].open| && res.quotes[p.q].volume[p.i] > 0 &&
    c == SampleCandle(res, p.q, p.i, format)
  }

  /** A candle of the last quote block of the first nq: its k-th kept sample. */
  lemma LastBlockCandleAt(res: ChartResult, r: nat, nq: nat, format: Formatter, j: nat)
    requires ResultInBounds(res) && 0 < nq <= |res.quotes|
    requires |ResultPositions(res, r, nq - 1)| <= j < |ResultPositions(res, r, nq)|
    ensures |ResultCandles(res, nq, format)| == |ResultPositions(res, r, nq)|
    ensures CandleReads(res, ResultPositions(res, r, nq)[j], ResultCandles(res, nq, format)[j], format)
  {
    var q := res.quotes[nq - 1];
    ResultCandlesLength(res, r, nq, format);
    ResultCandlesLength(res, r, nq - 1, format);
    assert QuoteInBounds(res.timestamps, q);
    QuoteCandlesFollowKept(res.timestamps, q, |q.open|, format);
    var ks := Kept(q.volume, |q.open|);
    var ps, ps', qp := ResultPositions(res, r, nq), ResultPositions(res, r, nq - 1), QuotePositions(r, nq - 1, ks);
    var cs, cs', qc := ResultCandles(res, nq, format), ResultCandles(res, nq - 1, format), QuoteCandles(res.timestamps, q, |q.open|, format);
    var k := j - |ps'|;
    assert ps[j] == qp[k] == Pos(r, nq - 1, ks[k]);
    assert cs[j] == qc[k];
  }

  /** Adding quote block nq - 1 leaves the earlier candles and positions in place. */
  lemma EarlierBlockCandleAt(res: ChartResult, r: nat, nq: nat, format: Formatter, j: nat)
    requires ResultInBounds(res) && 0 < nq <= |res.quotes| && j < |ResultPositions(res, r, nq - 1)|
    requires |ResultCandles(res, nq - 1, format)| == |ResultPositions(res, r, nq - 1)|
    ensures j < |ResultPositions(res, r, nq)| && j < |ResultCandles(res, nq, format)|
    ensures ResultPositions(res, r, nq)[j] == ResultPositions(res, r, nq - 1)[j]
    ensures ResultCandles(res, nq, format)[j] == ResultCandles(res, nq - 1, format)[j]
  {
  }

  lemma {:induction false} ResultCandleAt(res: ChartResult, r: nat, nq: nat, format: Formatter, j: nat)
    requires ResultInBounds(res) && nq <= |res.quotes| && j < |ResultPositions(res, r, nq)|
    ensures |ResultCandles(res, nq, format)| == |ResultPositions(res, r, nq)|
    ensures CandleReads(res, ResultPositions(res, r, nq)[j], ResultCandles(res, nq, format)[j], format)
  {
    ResultCandlesLength(res, r, nq, format);
    assert nq > 0;
    if j < |ResultPositions(res, r, nq - 1)| {
      ResultCandleAt(res, r, nq - 1, format, j);
      EarlierBlockCandleAt(res, r, nq, format, j);
    } else {
      LastBlockCandleAt(res, r, nq, format, j);
    }
  }

  lemma ResultCandlesFollowPositions(res: ChartResult, r: nat, nq: nat, format: Formatter)
    requires ResultInBounds(res) && nq <= |res.quotes|
    ensures |ResultCandles(res, nq, format)| == |ResultPositions(res, r, nq)|
    ensures forall k :: 0 <= k < |ResultPositions(res, r, nq)| ==>
      var p := ResultPositions(res, r, nq)[k];
      p.q < |res.quotes| && p.i < |res.quotes[p.q].open| && res.quotes[p.q].volume[p.i] > 0 &&
      ResultCandles(res, nq, format)[k] == SampleCandle(res, p.q, p.i, format)
  {
    ResultCandlesLength(res, r, nq, format);
    forall k | 0 <= k < |ResultPositions(res, r, nq)|
      ensures var p := ResultPositions(res, r, nq)[k];
        p.q < |res.quotes| && p.i < |res.quotes[p.q].open| && res.quotes[p.q].volume[p.i] > 0 &&
        ResultCandles(res, nq, format)[k] == SampleCandle(res, p.q, p.i, format)
    {
      ResultCandleAt(res, r, nq, format, k);
    }
  }

  lemma InBoundsCovers(results: seq<ChartResult>)
    requires LoadInBounds(results)
    ensures AllCovered(results)
  {
    forall j, k | 0 <= j < |results| && 0 <= k < |results[j].quotes|
      ensures Covers(results[j].quotes[k])
    {
      assert ResultInBounds(results[j]);
      assert QuoteInBounds(results[j].timestamps, results[j].quotes[k]);
    }
  }

  lemma {:induction false} CandlesLength(results: seq<ChartResult>, format: Formatter)
    requires LoadInBounds(results)
    ensures AllCovered(results)
    ensures |Candles(results, format)| == |Positions(results)|
  {
    InBoundsCovers(results);
    if |results| > 0 {
      var last := results[|results| - 1];
      CandlesLength(results[..|results| - 1], format);
      ResultCandlesFollowPositions(last, |results| - 1, |last.quotes|, format);
    }
  }

  /** Splitting the candles and positions of the payload at its last result. */
  lemma CandlesLastResult(results: seq<ChartResult>, format: Formatter)
    requires LoadInBounds(results) && |results| > 0
    ensures var pre, last := results[..|results| - 1], results[|results| - 1];
      LoadInBounds(pre) && ResultInBounds(last) && AllCovered(pre) && AllCovered(results) &&
      Positions(results) == Positions(pre) + ResultPositions(last, |results| - 1, |last.quotes|) &&
      Candles(results, format) == Candles(pre, format) + ResultCandles(last, |last.quotes|, format) &&
      |Candles(pre, format)| == |Positions(pre)| &&
      |ResultCandles(last, |last.quotes|, format)| == |ResultPositions(last, |results| - 1, |last.quotes|)|
  {
    var n := |results|;
    var last := results[n - 1];
    CandlesLength(results, format);
    CandlesLength(results[..n - 1], format);
    ResultCandlesLength(last, n - 1, |last.quotes|, format);
  }

  lemma {:induction false} CandleAtPosition(results: seq<ChartResult>, format: Formatter, k: nat)
    requires LoadInBounds(results) && AllCovered(results) && k < |Positions(results)|
    ensures IsKeptSample(results, Positions(results)[k])
    ensures |Candles(results, format)| == |Positions(results)|
    ensures Candles(results, format)[k] == CandleOf(results, Positions(results)[k], format)
  {
    var n := |results|;
    CandlesLastResult(results, format);
    OffsetCountsPositions(results, n - 1);
    if k < Offset(results, n - 1) {
      var pre := results[..n - 1];
      assert Positions(results)[k] == Positions(pre)[k] && Candles(results, format)[k] == Candles(pre, format)[k];
      CandleAtPosition(pre, format, k);
      CandleOfPrefix(results, n - 1, Positions(pre)[k], format);
    } else {
      LastResultCandleAt(results, format, k);
    }
  }

  /** A candle of the last result: the result's own candle at k - Offset. */
  lemma LastResultCandleAt(results: seq<ChartResult>, format: Formatter, k: nat)
    requires LoadInBounds(results) && |results| > 0 && AllCovered(results)
    requires Offset(results, |results| - 1) <= k < |Positions(results)|
    ensures |Candles(results, format)| == |Positions(results)|
    ensures IsKeptSample(results, Positions(results)[k])
    ensures Candles(results, format)[k] == CandleOf(results, Positions(results)[k], format)
  {
    var n := |results|;
    var pre, last := results[..n - 1], results[n - 1];
    CandlesLastResult(results, format);
    OffsetCountsPositions(results, n - 1);
    var rps, rcs := ResultPositions(last, n - 1, |last.quotes|), ResultCandles(last, |last.quotes|, format);
    var j := k - |Positions(pre)|;
    assert Positions(results)[k] == rps[j] && Candles(results, format)[k] == rcs[j];
    ResultCandleAt(last, n - 1, |last.quotes|, format, j);
    ResultPositionsExactly(last, n - 1, |last.quotes|);
    assert rps[j] in rps;
    KeptCandleOf(results, rps[j], rcs[j], format);
  }

  /** A candle read from a kept sample of result p.r is that sample's candle in the payload. */
  lemma KeptCandleOf(results: seq<ChartResult>, p: Pos, c: Candle, format: Formatter)
    requires LoadInBounds(results) && AllCovered(results) && p.r < |results|
    requires CandleReads(results[p.r], p, c, format)
    ensures IsKeptSample(results, p) && c == CandleOf(results, p, format)
  {
  }

  /** A kept sample of the first m results keeps its candle in the whole payload. */
  lemma CandleOfPrefix(results: seq<ChartResult>, m: nat, p: Pos, format: Formatter)
    requires LoadInBounds(results) && m <= |results| && LoadInBounds(results[..m])
    requires IsKeptSample(results[..m], p)
    ensures IsKeptSample(results, p)
    ensures CandleOf(results[..m], p, format) == CandleOf(results, p, format)
  {
    assert results[..m][p.r] == results[p.r];
  }


  /**
   * Load's candles are exactly the kept samples, in result, quote block, index order:
   * candle k is built from the sample at position k, its fields from index i of its
   * quote block and its timestamp from Timestamps[i] of its result.
   */
  lemma CandlesFollowPositions(results: seq<ChartResult>, format: Formatter)
    requires LoadInBounds(results)
    ensures AllCovered(results)
    ensures |Candles(results, format)| == |Positions(results)|
    ensures forall k :: 0 <= k < |Positions(results)| ==>
      IsKeptSample(results, Positions(results)[k]) &&
      Candles(results, format)[k] == CandleOf(results, Positions(results)[k], format)
  {
    CandlesLength(results, format);
    forall k | 0 <= k < |Positions(results)|
      ensures IsKeptSample(results, Positions(results)[k])
      ensures Candles(results, format)[k] == CandleOf(results, Positions(results)[k], format)
    {
      CandleAtPosition(results, format, k);
    }
  }

  function QuotesOpenTotal(quotes: seq<Quote>): nat
  {
    if |quotes| == 0 then 0 else QuotesOpenTotal(quotes[..|quotes| - 1]) + |quotes[|quotes| - 1].open|
  }

  /** The number of samples in the payload: the sum of len(Open) over all quote blocks. */
  function OpenTotal(results: seq<ChartResult>): nat
  {
    if |results| == 0 then 0 else OpenTotal(results[..|results| - 1]) + QuotesOpenTotal(results[|results| - 1].quotes)
  }

  lemma {:induction false} QuoteCandlesCount(ts: seq<int>, q: Quote, n: nat, format: Formatter)
    requires QuoteInBounds(ts, q) && n <= |q.open|
    ensures |QuoteCandles(ts, q, n, format)| <= n
  {
    if n > 0 {
      QuoteCandlesCount(ts, q, n - 1, format);
    }
  }

  lemma {:induction false} ResultCandlesCount(res: ChartResult, nq: nat, format: Formatter)
    requires ResultInBounds(res) && nq <= |res.quotes|
    ensures |ResultCandles(res, nq, format)| <= QuotesOpenTotal(res.quotes[..nq])
  {
    if nq > 0 {
      ResultCandlesCount(res, nq - 1, format);
      assert res.quotes[..nq][..nq - 1] == res.quotes[..nq - 1];
      var q := res.quotes[nq - 1];
      assert QuoteInBounds(res.timestamps, q);
      QuoteCandlesCount(res.timestamps, q, |q.open|, format);
    }
  }

  /** Load returns at most one candle per sample. */
  lemma {:induction false} CandlesCount(results: seq<ChartResult>, format: Formatter)
    requires LoadInBounds(results)
    ensures |Candles(results, format)| <= OpenTotal(results)
  {
    if |results| > 0 {
      var last := results[|results| - 1];
      CandlesCount(results[..|results| - 1], format);
      ResultCandlesCount(last, |last.quotes|, format);
      assert last.quotes[..|last.quotes|] == last.quotes;
    }
  }

  /**
   * Timestamps [t0, t1, t2] with volumes [0, 100, 50]: exactly two candles, for t1
   * and t2, in that order.
   */
  lemma ZeroVolumeDroppedExample(a: Float64, b: Float64, c: Float64, t0: int, t1: int, t2: int, format: Formatter)
    ensures var q := Quote([a, b, c], [a, b, c], [a, b, c], [a, b, c], [0, 100, 50]);
            var results := [ChartResult(ZeroMeta, [t0, t1, t2], [q])];
            LoadInBounds(results) &&
            Candles(results, format) == [Candle(format(t1), b, b, b, b, 100), Candle(format(t2), c, c, c, c, 50)]
  {
    var q := Quote([a, b, c], [a, b, c], [a, b, c], [a, b, c], [0, 100, 50]);
    var res := ChartResult(ZeroMeta, [t0, t1, t2], [q]);
    var results := [res];
    assert QuoteInBounds(res.timestamps, q);
    assert LoadInBounds(results);
    assert QuoteCandles(res.timestamps, q, 1, format) == [];
    assert QuoteCandles(res.timestamps, q, 2, format) == [Candle(format(t1), b, b, b, b, 100)];
    assert QuoteCandles(res.timestamps, q, 3, format) == [Candle(format(t1), b, b, b, b, 100), Candle(format(t2), c, c, c, c, 50)];
    assert ResultCandles(res, 1, format) == [] + QuoteCandles(res.timestamps, q, 3, format);
    assert results[..0] == [];
    assert Candles(results, format) == [] + ResultCandles(res, 1, format);
  }

  // ---------------------------------------------------------------------------
  // Load's loops.

  /** The part of Load after decoding: the metadata and the candles it collects. */
  method ProjectCandles(chart: ChartData, format: Formatter) returns (md: Meta, candles: seq<Candle>)
    requires LoadInBounds(chart.results)
    ensures md == LastMeta(chart.results)
    ensures candles == Candles(chart.results, format)
  {
    var results := chart.results;
    md := ZeroMeta;
    candles := [];
    var ri := 0;
    while ri < |results|
      invariant 0 <= ri <= |results|
      invariant md == LastMeta(results[..ri])
      invariant candles == Candles(results[..ri], format)
    {
      var r := results[ri];
      assert ResultInBounds(r);
      md := r.meta;
      candles := AppendResultCandles(r, format, candles);
      assert results[..ri + 1][..ri] == results[..ri];
      ri := ri + 1;
    }
    assert results[..ri] == results;
  }

  /** The loop over one result's quote blocks in Load. */
  method AppendResultCandles(r: ChartResult, format: Formatter, prefix: seq<Candle>) returns (candles: seq<Candle>)
    requires ResultInBounds(r)
    ensures candles == prefix + ResultCandles(r, |r.quotes|, format)
  {
    candles := prefix;
    var qi := 0;
    while qi < |r.quotes|
      invariant 0 <= qi <= |r.quotes|
      invariant candles == prefix + ResultCandles(r, qi, format)
    {
      var q := r.quotes[qi];
      assert QuoteInBounds(r.timestamps, q);
      candles := AppendQuoteCandles(r.timestamps, q, format, candles);
      qi := qi + 1;
    }
  }

  /** The loop over one quote block in Load: one candle per sample with a positive volume. */
  method AppendQuoteCandles(ts: seq<int>, q: Quote, format: Formatter, prefix: seq<Candle>) returns (candles: seq<Candle>)
    requires QuoteInBounds(ts, q)
    ensures candles == prefix + QuoteCandles(ts, q, |q.open|, format)
  {
    candles := prefix;
    var i := 0;
    while i < |q.open|
      invariant 0 <= i <= |q.open|
      invariant candles == prefix + QuoteCandles(ts, q, i, format)
    {
      if q.volume[i] > 0 {
        var cnd := Candle(format(ts[i]), q.open[i], q.high[i], q.low[i], q.close[i], q.volume[i]);
        candles := candles + [cnd];
      }
      i := i + 1;
    }
  }

  // ---------------------------------------------------------------------------
  // LoadMatrix: one row per kept sample, labelled by Timestamps[i], whose values
  // are read at a counter idx of the rows already added for the current result.

  /** A matrix row: its key (the row label) and the columns OPEN, HIGH, LOW, CLOSE, ADJ_CLOSE, VOLUME. */
  datatype Row = Row(key: string, open: Float64, high: Float64, low: Float64, close: Float64, adjClose: Float64, volume: int)

  /** Every value array of the quote block has index idx. */
  predicate ValueIndexInBounds(q: Quote, idx: nat) {
    idx < |q.open| && idx < |q.high| && idx < |q.low| && idx < |q.close| && idx < |q.volume|
  }

  /** The row for sample i, with its values read at idx. */
  function RowAt(ts: seq<int>, q: Quote, i: nat, idx: nat, format: Formatter): Row
    requires i < |ts| && ValueIndexInBounds(q, idx)
  {
    Row(format(ts[i]), q.open[idx], q.high[idx], q.low[idx], q.close[idx], q.close[idx], q.volume[idx])
  }

  /** The number of kept samples in the first nq quote blocks of a result. */
  function KeptCount(res: ChartResult, nq: nat): nat
    requires QuotesCovered(res) && nq <= |res.quotes|
  {
    if nq == 0 then 0
    else
      var q := res.quotes[nq - 1];
      KeptCount(res, nq - 1) + |Kept(q.volume, |q.open|)|
  }

  /** LoadMatrix reads within bounds for the first n samples of this quote block when idx starts at base. */
  predicate SamplesInBounds(ts: seq<int>, q: Quote, n: nat, base: nat)
    requires Covers(q) && n <= |q.open|
  {
    n == 0 ||
    (SamplesInBounds(ts, q, n - 1, base) &&
     (q.volume[n - 1] > 0 ==> n - 1 < |ts| && ValueIndexInBounds(q, base + |Kept(q.volume, n - 1)|)))
  }

  /** LoadMatrix reads within bounds in this quote block when idx starts at base. */
  predicate QuoteRowsInBounds(ts: seq<int>, q: Quote, base: nat) {
    Covers(q) && SamplesInBounds(ts, q, |q.open|, base)
  }

  predicate QuotesCovered(res: ChartResult) {
    forall k :: 0 <= k < |res.quotes| ==> Covers(res.quotes[k])
  }

  /** LoadMatrix reads within bounds in the first nq quote blocks of a result, idx carrying over. */
  predicate BlocksInBounds(res: ChartResult, nq: nat)
    requires QuotesCovered(res) && nq <= |res.quotes|
  {
    nq == 0 ||
    (BlocksInBounds(res, nq - 1) &&
     QuoteRowsInBounds(res.timestamps, res.quotes[nq - 1], KeptCount(res, nq - 1)))
  }

  predicate ResultRowsInBounds(res: ChartResult) {
    QuotesCovered(res) && BlocksInBounds(res, |res.quotes|)
  }

  lemma {:induction false} BlocksInBoundsPrefix(res: ChartResult, n: nat, m: nat)
    requires QuotesCovered(res) && m <= n <= |res.quotes| && BlocksInBounds(res, n)
    ensures BlocksInBounds(res, m)
    decreases n - m
  {
    if m < n {
      BlocksInBoundsPrefix(res, n - 1, m);
    }
  }

  /** LoadMatrix runs to completion on these results exactly when this holds. */
  predicate MatrixInBounds(results: seq<ChartResult>) {
    forall j :: 0 <= j < |results| ==> ResultRowsInBounds(results[j])
  }

  /** The rows of the first n samples of a quote block, idx starting at base. */
  function QuoteRows(ts: seq<int>, q: Quote, n: nat, base: nat, format: Formatter): seq<Row>
    requires Covers(q) && n <= |q.open| && SamplesInBounds(ts, q, n, base)
  {
    if n == 0 then []
    else QuoteRows(ts, q, n - 1, base, format)
         + (if q.volume[n - 1] > 0 then [RowAt(ts, q, n - 1, base + |Kept(q.volume, n - 1)|, format)] else [])
  }

  /** The rows of the first nq quote blocks of a result; idx carries over from block to block. */
  function ResultRows(res: ChartResult, nq: nat, format: Formatter): seq<Row>
    requires QuotesCovered(res) && nq <= |res.quotes| && BlocksInBounds(res, nq)
  {
    if nq == 0 then []
    else
      var q := res.quotes[nq - 1];
      ResultRows(res, nq - 1, format) + QuoteRows(res.timestamps, q, |q.open|, KeptCount(res, nq - 1), format)
  }

  /** The rows LoadMatrix adds to its matrix. */
  function Rows(results: seq<ChartResult>, format: Formatter): seq<Row>
    requires MatrixInBounds(results)
  {
    if |results| == 0 then []
    else
      var last := results[|results| - 1];
      Rows(results[..|results| - 1], format) + ResultRows(last, |last.quotes|, format)
  }

  lemma MatrixInBoundsCovers(results: seq<ChartResult>)
    requires MatrixInBounds(results)
    ensures AllCovered(results)
  {
    forall j, k | 0 <= j < |results| && 0 <= k < |results[j].quotes|
      ensures Covers(results[j].quotes[k])
    {
      assert ResultRowsInBounds(results[j]);
    }
  }

  lemma {:induction false} QuoteRowsLength(ts: seq<int>, q: Quote, n: nat, base: nat, format: Formatter)
    requires Covers(q) && n <= |q.open| && SamplesInBounds(ts, q, n, base)
    ensures |QuoteRows(ts, q, n, base, format)| == |Kept(q.volume, n)|
  {
    if n > 0 {
      QuoteRowsLength(ts, q, n - 1, base, format);
    }
  }

  lemma {:induction false} QuoteRowAt(ts: seq<int>, q: Quote, n: nat, base: nat, format: Formatter, k: nat)
    requires Covers(q) && n <= |q.open| && SamplesInBounds(ts, q, n, base) && k < |Kept(q.volume, n)|
    ensures |QuoteRows(ts, q, n, base, format)| == |Kept(q.volume, n)|
    ensures Kept(q.volume, n)[k] < |ts| && ValueIndexInBounds(q, base + k)
    ensures QuoteRows(ts, q, n, base, format)[k] == RowAt(ts, q, Kept(q.volume, n)[k], base + k, format)
  {
    QuoteRowsLength(ts, q, n, base, format);
    QuoteRowsLength(ts, q, n - 1, base, format);
    var ks, ks' := Kept(q.volume, n), Kept(q.volume, n - 1);
    var rs, rs' := QuoteRows(ts, q, n, base, format), QuoteRows(ts, q, n - 1, base, format);
    if k < |ks'| {
      QuoteRowAt(ts, q, n - 1, base, format, k);
      assert ks[k] == ks'[k] && rs[k] == rs'[k];
    } else {
      assert q.volume[n - 1] > 0 && ks[k] == n - 1;
      assert n - 1 < |ts| && ValueIndexInBounds(q, base + |ks'|);
    }
  }

  /** Row k of a quote block is labelled by the k-th kept sample and valued at base + k. */
  predicate CompactedRowAt(ts: seq<int>, q: Quote, n: nat, base: nat, format: Formatter, k: nat)
    requires Covers(q) && n <= |q.open| && SamplesInBounds(ts, q, n, base)
  {
    k < |Kept(q.volume, n)| && k < |QuoteRows(ts, q, n, base, format)| &&
    Kept(q.volume, n)[k] < |ts| && ValueIndexInBounds(q, base + k) &&
    QuoteRows(ts, q, n, base, format)[k] == RowAt(ts, q, Kept(q.volume, n)[k], base + k, format)
  }

  /** The k-th kept sample of a quote block is labelled by its own index but valued at base + k. */
  lemma QuoteRowsAtCompactedIndex(ts: seq<int>, q: Quote, n: nat, base: nat, format: Formatter)
    requires Covers(q) && n <= |q.open| && SamplesInBounds(ts, q, n, base)
    ensures |QuoteRows(ts, q, n, base, format)| == |Kept(q.volume, n)|
    ensures forall k :: 0 <= k < |Kept(q.volume, n)| ==> CompactedRowAt(ts, q, n, base, format, k)
  {
    QuoteRowsLength(ts, q, n, base, format);
    forall k | 0 <= k < |Kept(q.volume, n)|
      ensures CompactedRowAt(ts, q, n, base, format, k)
    {
      QuoteRowAt(ts, q, n, base, format, k);
    }
  }

  /**
   * Within the first quote block of a result idx starts at 0, so the values of the row
   * for sample i are read at an index idx <= i.
   */
  lemma FirstBlockReadsAtOrBefore(res: ChartResult, format: Formatter, k: nat)
    requires QuotesCovered(res) && |res.quotes| > 0 && BlocksInBounds(res, 1)
    requires k < |Kept(res.quotes[0].volume, |res.quotes[0].open|)|
    ensures var q := res.quotes[0];
            var i := Kept(q.volume, |q.open|)[k];
            i < |res.timestamps| && ValueIndexInBounds(q, k) && k <= i &&
            k < |ResultRows(res, 1, format)| && ResultRows(res, 1, format)[k] == RowAt(res.timestamps, q, i, k, format)
  {
    var q := res.quotes[0];
    assert res.quotes[..0] == [];
    assert QuoteRowsInBounds(res.timestamps, q, 0);
    QuoteRowAt(res.timestamps, q, |q.open|, 0, format, k);
    KeptAtLeastPosition(q.volume, |q.open|, k);
    assert ResultRows(res, 1, format) == [] + QuoteRows(res.timestamps, q, |q.open|, 0, format);
  }

  lemma {:induction false} ResultRowsLength(res: ChartResult, r: nat, nq: nat, format: Formatter)
    requires QuotesCovered(res) && nq <= |res.quotes| && BlocksInBounds(res, nq)
    ensures |ResultRows(res, nq, format)| == |ResultPositions(res, r, nq)| == KeptCount(res, nq)
  {
    if nq > 0 {
      var q := res.quotes[nq - 1];
      var base := KeptCount(res, nq - 1);
      ResultRowsLength(res, r, nq - 1, format);
      assert QuoteRowsInBounds(res.timestamps, q, base);
      QuoteRowsLength(res.timestamps, q, |q.open|, base, format);
    }
  }

  /** row is the row LoadMatrix builds for sample p of res with its values read at index j. */
  predicate RowReads(res: ChartResult, p: Pos, j: nat, row: Row, format: Formatter) {
    p.q < |res.quotes| && p.i < |res.timestamps| && ValueIndexInBounds(res.quotes[p.q], j) &&
    row == RowAt(res.timestamps, res.quotes[p.q], p.i, j, format)
  }

  /** Splitting a result's rows and positions at its last quote block. */
  lemma ResultLastBlock(res: ChartResult, r: nat, nq: nat, format: Formatter)
    requires QuotesCovered(res) && 0 < nq <= |res.quotes| && BlocksInBounds(res, nq)
    ensures BlocksInBounds(res, nq - 1)
    ensures QuoteRowsInBounds(res.timestamps, res.quotes[nq - 1], KeptCount(res, nq - 1))
    ensures ResultRows(res, nq, format) == ResultRows(res, nq - 1, format)
      + QuoteRows(res.timestamps, res.quotes[nq - 1], |res.quotes[nq - 1].open|, KeptCount(res, nq - 1), format)
    ensures ResultPositions(res, r, nq) == ResultPositions(res, r, nq - 1)
      + QuotePositions(r, nq - 1, Kept(res.quotes[nq - 1].volume, |res.quotes[nq - 1].open|))
    ensures |ResultRows(res, nq - 1, format)| == |ResultPositions(res, r, nq - 1)| == KeptCount(res, nq - 1)
    ensures |ResultRows(res, nq, format)| == |ResultPositions(res, r, nq)| == KeptCount(res, nq)
      == KeptCount(res, nq - 1) + |Kept(res.quotes[nq - 1].volume, |res.quotes[nq - 1].open|)|
  {
    ResultRowsLength(res, r, nq, format);
    ResultRowsLength(res, r, nq - 1, format);
  }

  /** Row j of block b, whose rows start at base, reads its position's block at j. */
  lemma BlockRowReads(res: ChartResult, r: nat, b: nat, base: nat, format: Formatter, j: nat)
    requires b < |res.quotes| && QuoteRowsInBounds(res.timestamps, res.quotes[b], base)
    requires base <= j < base + |Kept(res.quotes[b].volume, |res.quotes[b].open|)|
    ensures var q := res.quotes[b];
      |QuoteRows(res.timestamps, q, |q.open|, base, format)| == |Kept(q.volume, |q.open|)| &&
      RowReads(res, QuotePositions(r, b, Kept(q.volume, |q.open|))[j - base], j,
               QuoteRows(res.timestamps, q, |q.open|, base, format)[j - base], format)
  {
    var q := res.quotes[b];
    QuoteRowAt(res.timestamps, q, |q.open|, base, format, j - base);
  }

  /** Reading a row past the rows of the earlier blocks is reading the appended block. */
  lemma AppendedRowReads(res: ChartResult, ps: seq<Pos>, qp: seq<Pos>, rs: seq<Row>, qr: seq<Row>,
                         allPs: seq<Pos>, allRs: seq<Row>, base: nat, format: Formatter, j: nat)
    requires allPs == ps + qp && allRs == rs + qr
    requires |ps| == |rs| == base <= j < base + |qp| && |qp| == |qr|
    requires RowReads(res, qp[j - base], j, qr[j - base], format)
    ensures j < |allPs| && j < |allRs|
    ensures RowReads(res, allPs[j], j, allRs[j], format)
  {
    assert allPs[j] == qp[j - base];
  }

  /** A row of the last quote block of the first nq: its k-th kept sample, valued at base + k. */
  lemma LastBlockRowAt(res: ChartResult, r: nat, nq: nat, format: Formatter, j: nat)
    requires QuotesCovered(res) && 0 < nq <= |res.quotes| && BlocksInBounds(res, nq)
    requires KeptCount(res, nq - 1) <= j < |ResultPositions(res, r, nq)|
    ensures |ResultRows(res, nq, format)| == |ResultPositions(res, r, nq)|
    ensures RowReads(res, ResultPositions(res, r, nq)[j], j, ResultRows(res, nq, format)[j], format)
  {
    ResultLastBlock(res, r, nq, format);
    var q, base := res.quotes[nq - 1], KeptCount(res, nq - 1);
    BlockRowReads(res, r, nq - 1, base, format, j);
    AppendedRowReads(res, ResultPositions(res, r, nq - 1), QuotePositions(r, nq - 1, Kept(q.volume, |q.open|)),
      ResultRows(res, nq - 1, format), QuoteRows(res.timestamps, q, |q.open|, base, format),
      ResultPositions(res, r, nq), ResultRows(res, nq, format), base, format, j);
  }

  /** A row of an earlier quote block keeps its position and its values when a block is appended. */
  lemma EarlierBlockRowAt(res: ChartResult, r: nat, nq: nat, format: Formatter, j: nat)
    requires QuotesCovered(res) && 0 < nq <= |res.quotes| && BlocksInBounds(res, nq)
    requires j < |ResultPositions(res, r, nq - 1)| && j < |ResultRows(res, nq - 1, format)|
    ensures j < |ResultPositions(res, r, nq)| && j < |ResultRows(res, nq, format)|
    ensures ResultPositions(res, r, nq)[j] == ResultPositions(res, r, nq - 1)[j]
    ensures ResultRows(res, nq, format)[j] == ResultRows(res, nq - 1, format)[j]
    ensures RowReads(res, ResultPositions(res, r, nq - 1)[j], j, ResultRows(res, nq - 1, format)[j], format)
      ==> RowReads(res, ResultPositions(res, r, nq)[j], j, ResultRows(res, nq, format)[j], format)
  {
    ResultLastBlock(res, r, nq, format);
  }

  lemma {:induction false} ResultRowAt(res: ChartResult, r: nat, nq: nat, format: Formatter, j: nat)
    requires QuotesCovered(res) && nq <= |res.quotes| && BlocksInBounds(res, nq) && j < |ResultPositions(res, r, nq)|
    ensures |ResultRows(res, nq, format)| == |ResultPositions(res, r, nq)|
    ensures RowReads(res, ResultPositions(res, r, nq)[j], j, ResultRows(res, nq, format)[j], format)
  {
    ResultRowsLength(res, r, nq, format);
    assert nq > 0 && BlocksInBounds(res, nq - 1);
    ResultRowsLength(res, r, nq - 1, format);
    if j < KeptCount(res, nq - 1) {
      ResultRowAt(res, r, nq - 1, format, j);
      EarlierBlockRowAt(res, r, nq, format, j);
    } else {
      LastBlockRowAt(res, r, nq, format, j);
    }
  }

  /**
   * Within a result, the j-th row is labelled by the j-th kept sample of the result
   * but its values are read at index j of that sample's quote block.
   */
  lemma ResultRowsAtCompactedIndex(res: ChartResult, r: nat, format: Formatter)
    requires ResultRowsInBounds(res)
    ensures |ResultRows(res, |res.quotes|, format)| == |ResultPositions(res, r, |res.quotes|)|
    ensures forall j :: 0 <= j < |ResultPositions(res, r, |res.quotes|)| ==>
      var p := ResultPositions(res, r, |res.quotes|)[j];
      p.q < |res.quotes| && p.i < |res.timestamps| && ValueIndexInBounds(res.quotes[p.q], j) &&
      ResultRows(res, |res.quotes|, format)[j] == RowAt(res.timestamps, res.quotes[p.q], p.i, j, format)
  {
    ResultRowsLength(res, r, |res.quotes|, format);
    forall j | 0 <= j < |ResultPositions(res, r, |res.quotes|)|
      ensures var p := ResultPositions(res, r, |res.quotes|)[j];
        p.q < |res.quotes| && p.i < |res.timestamps| && ValueIndexInBounds(res.quotes[p.q], j) &&
        ResultRows(res, |res.quotes|, format)[j] == RowAt(res.timestamps, res.quotes[p.q], p.i, j, format)
    {
      ResultRowAt(res, r, |res.quotes|, format, j);
    }
  }

  lemma {:induction false} RowsLength(results: seq<ChartResult>, format: Formatter)
    requires MatrixInBounds(results)
    ensures AllCovered(results)
    ensures |Rows(results, format)| == |Positions(results)|
  {
    MatrixInBoundsCovers(results);
    if |results| > 0 {
      var last := results[|results| - 1];
      RowsLength(results[..|results| - 1], format);
      ResultRowsLength(last, |results| - 1, |last.quotes|, format);
    }
  }

  /** Splitting the rows and positions of the payload at its last result. */
  lemma RowsLastResult(results: seq<ChartResult>, format: Formatter)
    requires MatrixInBounds(results) && |results| > 0
    ensures var pre, last := results[..|results| - 1], results[|results| - 1];
      MatrixInBounds(pre) && ResultRowsInBounds(last) && AllCovered(pre) && AllCovered(results) &&
      Positions(results) == Positions(pre) + ResultPositions(last, |results| - 1, |last.quotes|) &&
      Rows(results, format) == Rows(pre, format) + ResultRows(last, |last.quotes|, format) &&
      |Rows(pre, format)| == |Positions(pre)| &&
      |ResultRows(last, |last.quotes|, format)| == |ResultPositions(last, |results| - 1, |last.quotes|)|
  {
    var n := |results|;
    var last := results[n - 1];
    RowsLength(results, format);
    RowsLength(results[..n - 1], format);
    ResultRowsLength(last, n - 1, |last.quotes|, format);
  }

  /** Row j of a result belongs to the result's j-th kept sample and is valued at index j of its quote block. */
  lemma ResultRowLabel(res: ChartResult, r: nat, format: Formatter, j: nat)
    requires ResultRowsInBounds(res) && j < |ResultPositions(res, r, |res.quotes|)|
    ensures |ResultRows(res, |res.quotes|, format)| == |ResultPositions(res, r, |res.quotes|)|
    ensures var p := ResultPositions(res, r, |res.quotes|)[j];
      p.r == r && p.q < |res.quotes| && p.i < |res.quotes[p.q].open| && res.quotes[p.q].volume[p.i] > 0 &&
      RowReads(res, p, j, ResultRows(res, |res.quotes|, format)[j], format)
  {
    ResultRowAt(res, r, |res.quotes|, format, j);
    ResultPositionsExactly(res, r, |res.quotes|);
    assert ResultPositions(res, r, |res.quotes|)[j] in ResultPositions(res, r, |res.quotes|);
  }

  /** The number of kept samples, and so of rows, in the results before result r. */
  function Offset(results: seq<ChartResult>, r: nat): nat
    requires AllCovered(results) && r <= |results|
  {
    if r == 0 then 0
    else
      var res := results[r - 1];
      Offset(results, r - 1) + |ResultPositions(res, r - 1, |res.quotes|)|
  }

  /** Offset counts the positions Load visits before result r. */
  lemma {:induction false} OffsetCountsPositions(results: seq<ChartResult>, r: nat)
    requires AllCovered(results) && r <= |results|
    ensures AllCovered(results[..r]) && Offset(results, r) == |Positions(results[..r])|
  {
    if r > 0 {
      OffsetCountsPositions(results, r - 1);
      assert results[..r][..r - 1] == results[..r - 1];
    }
  }

  /** Offset only looks at the results before r. */
  lemma {:induction false} OffsetOfPrefix(results: seq<ChartResult>, m: nat, r: nat)
    requires AllCovered(results) && r <= m <= |results|
    ensures AllCovered(results[..m]) && Offset(results[..m], r) == Offset(results, r)
  {
    if r > 0 {
      OffsetOfPrefix(results, m, r - 1);
      assert results[..m][r - 1] == results[r - 1];
    }
  }

  /**
   * A row of the matrix that belongs to the kept sample p, placed at k: its values are read
   * at index k - Offset(results, p.r) of p's quote block, so idx counts the rows of p's result.
   */
  predicate RowOfSample(results: seq<ChartResult>, p: Pos, k: nat, row: Row, format: Formatter)
    requires AllCovered(results)
  {
    IsKeptSample(results, p) && Offset(results, p.r) <= k &&
    RowReads(results[p.r], p, k - Offset(results, p.r), row, format)
  }

  /** What holds of a row for a prefix of the results holds for the whole payload. */
  lemma RowOfSamplePrefix(results: seq<ChartResult>, m: nat, p: Pos, k: nat, row: Row, format: Formatter)
    requires AllCovered(results) && m <= |results| && AllCovered(results[..m])
    requires RowOfSample(results[..m], p, k, row, format)
    ensures RowOfSample(results, p, k, row, format)
  {
    OffsetOfPrefix(results, m, p.r);
    assert results[..m][p.r] == results[p.r];
  }

  /** A row of the last result: the result's own row at k - Offset. */
  lemma LastResultRowAt(results: seq<ChartResult>, format: Formatter, k: nat)
    requires MatrixInBounds(results) && |results| > 0 && AllCovered(results)
    requires Offset(results, |results| - 1) <= k < |Positions(results)|
    ensures |Rows(results, format)| == |Positions(results)|
    ensures RowOfSample(results, Positions(results)[k], k, Rows(results, format)[k], format)
  {
    var n := |results|;
    var pre, last := results[..n - 1], results[n - 1];
    RowsLastResult(results, format);
    OffsetCountsPositions(results, n - 1);
    var ps', rps := Positions(pre), ResultPositions(last, n - 1, |last.quotes|);
    var rs', rrs := Rows(pre, format), ResultRows(last, |last.quotes|, format);
    var j := k - |ps'|;
    assert Positions(results)[k] == rps[j] && Rows(results, format)[k] == rrs[j];
    ResultRowLabel(last, n - 1, format, j);
    SampleRowAt(results, rps[j], j, k, rrs[j], format);
  }

  /** A row read at j of its own result, placed j rows after the earlier results' rows. */
  lemma SampleRowAt(results: seq<ChartResult>, p: Pos, j: nat, k: nat, row: Row, format: Formatter)
    requires AllCovered(results) && p.r < |results| && k == Offset(results, p.r) + j
    requires p.q < |results[p.r].quotes| && p.i < |results[p.r].quotes[p.q].open|
    requires results[p.r].quotes[p.q].volume[p.i] > 0
    requires RowReads(results[p.r], p, j, row, format)
    ensures RowOfSample(results, p, k, row, format)
  {
  }

  /** An earlier result's row keeps its place, and its sample, when a result is appended. */
  lemma EarlierResultRowAt(results: seq<ChartResult>, format: Formatter, k: nat)
    requires MatrixInBounds(results) && |results| > 0 && AllCovered(results)
    requires k < Offset(results, |results| - 1)
    ensures |Rows(results, format)| == |Positions(results)|
    ensures var pre := results[..|results| - 1];
      MatrixInBounds(pre) && AllCovered(pre) && k < |Positions(pre)| && k < |Rows(pre, format)| &&
      Positions(results)[k] == Positions(pre)[k] && Rows(results, format)[k] == Rows(pre, format)[k]
  {
    RowsLastResult(results, format);
    OffsetCountsPositions(results, |results| - 1);
  }

  lemma {:induction false} RowAtPosition(results: seq<ChartResult>, format: Formatter, k: nat)
    requires MatrixInBounds(results) && AllCovered(results) && k < |Positions(results)|
    ensures |Rows(results, format)| == |Positions(results)|
    ensures RowOfSample(results, Positions(results)[k], k, Rows(results, format)[k], format)
  {
    var n := |results|;
    RowsLastResult(results, format);
    OffsetCountsPositions(results, n - 1);
    if k < Offset(results, n - 1) {
      var pre := results[..n - 1];
      EarlierResultRowAt(results, format, k);
      RowAtPosition(pre, format, k);
      RowOfSamplePrefix(results, n - 1, Positions(pre)[k], k, Rows(pre, format)[k], format);
    } else {
      LastResultRowAt(results, format, k);
    }
  }

  /**
   * LoadMatrix adds one row per kept sample, in the order Load builds its candles;
   * row k is labelled by Timestamps[i] of the sample at position k, and its ADJ_CLOSE
   * column repeats its CLOSE column.
   */
  lemma RowsFollowPositions(results: seq<ChartResult>, format: Formatter)
    requires MatrixInBounds(results)
    ensures AllCovered(results)
    ensures |Rows(results, format)| == |Positions(results)|
    ensures forall k :: 0 <= k < |Positions(results)| ==>
      RowOfSample(results, Positions(results)[k], k, Rows(results, format)[k], format)
    ensures forall k :: 0 <= k < |Positions(results)| ==>
      var p := Positions(results)[k];
      IsKeptSample(results, p) && p.i < |results[p.r].timestamps| &&
      Rows(results, format)[k].key == format(results[p.r].timestamps[p.i]) &&
      Rows(results, format)[k].adjClose == Rows(results, format)[k].close
  {
    MatrixInBoundsCovers(results);
    RowsLength(results, format);
    forall k | 0 <= k < |Positions(results)|
      ensures RowOfSample(results, Positions(results)[k], k, Rows(results, format)[k], format)
      ensures var p := Positions(results)[k];
        IsKeptSample(results, p) && p.i < |results[p.r].timestamps| &&
        Rows(results, format)[k].key == format(results[p.r].timestamps[p.i]) &&
        Rows(results, format)[k].adjClose == Rows(results, format)[k].close
    {
      RowAtPosition(results, format, k);
    }
  }

  /**
   * One result, one quote block, volumes [0, 5]: Load keeps the second sample, but the
   * row LoadMatrix labels with its timestamp carries the values of the first, dropped
   * sample, volume 0 included.
   */
  lemma MisalignedRowExample(a: Float64, b: Float64, t0: int, t1: int, format: Formatter)
    ensures var q := Quote([a, b], [a, b], [a, b], [a, b], [0, 5]);
            var results := [ChartResult(ZeroMeta, [t0, t1], [q])];
            LoadInBounds(results) && MatrixInBounds(results) &&
            Candles(results, format) == [Candle(format(t1), b, b, b, b, 5)] &&
            Rows(results, format) == [Row(format(t1), a, a, a, a, a, 0)]
  {
    var q := Quote([a, b], [a, b], [a, b], [a, b], [0, 5]);
    var res := ChartResult(ZeroMeta, [t0, t1], [q]);
    var results := [res];
    assert Kept(q.volume, 0) == [];
    assert Kept(q.volume, 1) == [];
    assert res.quotes[..0] == [];
    assert SamplesInBounds(res.timestamps, q, 1, 0);
    assert SamplesInBounds(res.timestamps, q, 2, 0);
    assert KeptCount(res, 0) == 0;
    assert QuoteRowsInBounds(res.timestamps, res.quotes[0], 0);
    assert BlocksInBounds(res, 1);
    assert ResultRowsInBounds(res);
    assert results[..0] == [];
    assert QuoteCandles(res.timestamps, q, 1, format) == [];
    assert QuoteCandles(res.timestamps, q, 2, format) == [Candle(format(t1), b, b, b, b, 5)];
    assert ResultCandles(res, 1, format) == [] + QuoteCandles(res.timestamps, q, 2, format);
    assert Candles(results, format) == [] + ResultCandles(res, 1, format);
    assert QuoteRows(res.timestamps, q, 1, 0, format) == [];
    assert QuoteRows(res.timestamps, q, 2, 0, format) == [Row(format(t1), a, a, a, a, a, 0)];
    assert ResultRows(res, 1, format) == [] + QuoteRows(res.timestamps, q, 2, 0, format);
    assert Rows(results, format) == [] + ResultRows(res, 1, format);
  }

  lemma {:induction false} AlignedSamplesInBounds(ts: seq<int>, q: Quote, n: nat)
    requires Covers(q) && n <= |q.open|
    requires |ts| >= |q.open| && |q.high| >= |q.open| && |q.low| >= |q.open| && |q.close| >= |q.open|
    ensures SamplesInBounds(ts, q, n, 0)
  {
    if n > 0 {
      AlignedSamplesInBounds(ts, q, n - 1);
      KeptExactly(q.volume, n - 1);
    }
  }

  /**
   * With aligned arrays and at most one quote block per result, the running index
   * never passes the sample index, so LoadMatrix completes whenever Load does.
   */
  lemma SingleBlockMatrixInBounds(results: seq<ChartResult>)
    requires Aligned(results)
    requires forall j :: 0 <= j < |results| ==> |results[j].quotes| <= 1
    ensures LoadInBounds(results) && MatrixInBounds(results)
  {
    forall j | 0 <= j < |results|
      ensures ResultRowsInBounds(results[j])
    {
      var res := results[j];
      if |res.quotes| == 1 {
        var q := res.quotes[0];
        AlignedSamplesInBounds(res.timestamps, q, |q.open|);
        assert KeptCount(res, 0) == 0;
        assert BlocksInBounds(res, 1);
      }
    }
  }

  /**
   * One result with two quote blocks of one sample each: Load handles it, but LoadMatrix
   * does not reset idx for the second block and reads Open[1] of a one-element array.
   */
  lemma SecondBlockPanics(a: Float64, t0: int)
    ensures var q := Quote([a], [a], [a], [a], [5]);
            var results := [ChartResult(ZeroMeta, [t0], [q, q])];
            LoadInBounds(results) && !MatrixInBounds(results)
  {
    var q := Quote([a], [a], [a], [a], [5]);
    var res := ChartResult(ZeroMeta, [t0], [q, q]);
    assert res.quotes[..1] == [q];
    assert [q][..0] == [];
    assert Kept(q.volume, 1) == [0];
    assert KeptCount(res, 1) == 1;
    assert !QuoteRowsInBounds(res.timestamps, q, 1) by {
      assert Kept(q.volume, 0) == [];
      assert !ValueIndexInBounds(q, 1);
    }
    assert !ResultRowsInBounds(res);
    assert [res][0] == res;
  }

  // ---------------------------------------------------------------------------
  // The evidently intended LoadMatrix: values read at the sample's own index i.

  function RowOf(c: Candle): Row
  {
    Row(c.timestamp, c.open, c.high, c.low, c.close, c.close, c.volume)
  }

  function RowsOf(cs: seq<Candle>): seq<Row>
  {
    seq(|cs|, k requires 0 <= k < |cs| => RowOf(cs[k]))
  }

  function AlignedQuoteRows(ts: seq<int>, q: Quote, n: nat, format: Formatter): seq<Row>
    requires QuoteInBounds(ts, q) && n <= |q.open|
  {
    if n == 0 then []
    else AlignedQuoteRows(ts, q, n - 1, format)
         + (if q.volume[n - 1] > 0 then [RowAt(ts, q, n - 1, n - 1, format)] else [])
  }

  function AlignedResultRows(r: ChartResult, nq: nat, format: Formatter): seq<Row>
    requires ResultInBounds(r) && nq <= |r.quotes|
  {
    if nq == 0 then []
    else
      var q := r.quotes[nq - 1];
      AlignedResultRows(r, nq - 1, format) + AlignedQuoteRows(r.timestamps, q, |q.open|, format)
  }

  /** LoadMatrix with q.Open[i], q.High[i], ... in place of q.Open[idx], q.High[idx], .... */
  function AlignedRows(results: seq<ChartResult>, format: Formatter): seq<Row>
    requires LoadInBounds(results)
  {
    if |results| == 0 then []
    else
      var last := results[|results| - 1];
      AlignedRows(results[..|results| - 1], format) + AlignedResultRows(last, |last.quotes|, format)
  }

  lemma RowsOfAppend(xs: seq<Candle>, ys: seq<Candle>)
    ensures RowsOf(xs + ys) == RowsOf(xs) + RowsOf(ys)
  {
  }

  lemma {:induction false} AlignedQuoteRowsMatch(ts: seq<int>, q: Quote, n: nat, format: Formatter)
    requires QuoteInBounds(ts, q) && n <= |q.open|
    ensures AlignedQuoteRows(ts, q, n, format) == RowsOf(QuoteCandles(ts, q, n, format))
  {
    if n > 0 {
      AlignedQuoteRowsMatch(ts, q, n - 1, format);
      var c := if q.volume[n - 1] > 0 then [CandleAt(ts, q, n - 1, format)] else [];
      RowsOfAppend(QuoteCandles(ts, q, n - 1, format), c);
    }
  }

  lemma {:induction false} AlignedResultRowsMatch(r: ChartResult, nq: nat, format: Formatter)
    requires ResultInBounds(r) && nq <= |r.quotes|
    ensures AlignedResultRows(r, nq, format) == RowsOf(ResultCandles(r, nq, format))
  {
    if nq > 0 {
      var q := r.quotes[nq - 1];
      assert QuoteInBounds(r.timestamps, q);
      AlignedResultRowsMatch(r, nq - 1, format);
      AlignedQuoteRowsMatch(r.timestamps, q, |q.open|, format);
      RowsOfAppend(ResultCandles(r, nq - 1, format), QuoteCandles(r.timestamps, q, |q.open|, format));
    }
  }

  /**
   * The corrected LoadMatrix runs wherever Load runs and yields exactly Load's candles as
   * rows: row k has candle k's timestamp as key, its values, and ADJ_CLOSE equal to CLOSE.
   */
  lemma {:induction false} AlignedRowsMatchCandles(results: seq<ChartResult>, format: Formatter)
    requires LoadInBounds(results)
    ensures AlignedRows(results, format) == RowsOf(Candles(results, format))
  {
    if |results| > 0 {
      var last := results[|results| - 1];
      AlignedRowsMatchCandles(results[..|results| - 1], format);
      AlignedResultRowsMatch(last, |last.quotes|, format);
      RowsOfAppend(Candles(results[..|results| - 1], format), ResultCandles(last, |last.quotes|, format));
    }
  }

  // ---------------------------------------------------------------------------
  // LoadMatrix's loops.

  /** The part of LoadMatrix after decoding: the metadata and the rows it adds. */
  method ProjectMatrix(chart: ChartData, format: Formatter) returns (md: Meta, rows: seq<Row>)
    requires MatrixInBounds(chart.results)
    ensures md == LastMeta(chart.results)
    ensures rows == Rows(chart.results, format)
  {
    var results := chart.results;
    md := ZeroMeta;
    rows := [];
    var ri := 0;
    while ri < |results|
      invariant 0 <= ri <= |results|
      invariant md == LastMeta(results[..ri])
      invariant rows == Rows(results[..ri], format)
    {
      var r := results[ri];
      assert ResultRowsInBounds(r);
      md := r.meta;
      rows := AppendResultRows(r, format, rows);
      assert results[..ri + 1][..ri] == results[..ri];
      ri := ri + 1;
    }
    assert results[..ri] == results;
  }

  /** The loop state of AppendResultRows after qi quote blocks. */
  predicate BlocksAppended(r: ChartResult, format: Formatter, prefix: seq<Row>, qi: nat, idx: nat, rows: seq<Row>) {
    QuotesCovered(r) && qi <= |r.quotes| && BlocksInBounds(r, qi) &&
    idx == KeptCount(r, qi) && rows == prefix + ResultRows(r, qi, format)
  }

  /** The loop over one result's quote blocks; idx starts at zero for each result. */
  method AppendResultRows(r: ChartResult, format: Formatter, prefix: seq<Row>) returns (rows: seq<Row>)
    requires ResultRowsInBounds(r)
    ensures rows == prefix + ResultRows(r, |r.quotes|, format)
  {
    rows := prefix;
    var idx := 0;
    var qi := 0;
    while qi < |r.quotes|
      invariant BlocksAppended(r, format, prefix, qi, idx, rows)
    {
      var q := r.quotes[qi];
      ghost var done := rows;
      ResultRowsStep(r, qi, format);
      rows, idx := AppendQuoteRows(r.timestamps, q, idx, format, rows);
      AppendedBlock(r, qi, format, prefix, done, rows);
      qi := qi + 1;
    }
  }

  lemma AppendedBlock(r: ChartResult, qi: nat, format: Formatter, prefix: seq<Row>, done: seq<Row>, rows: seq<Row>)
    requires ResultRowsInBounds(r) && qi < |r.quotes| && BlocksInBounds(r, qi + 1)
    requires done == prefix + ResultRows(r, qi, format)
    requires rows == done + QuoteRows(r.timestamps, r.quotes[qi], |r.quotes[qi].open|, KeptCount(r, qi), format)
    ensures rows == prefix + ResultRows(r, qi + 1, format)
  {
    ResultRowsStep(r, qi, format);
  }

  /** The inner loop of the matrix projection: one quote block, read at the running index. */
  method AppendQuoteRows(ts: seq<int>, q: Quote, base: nat, format: Formatter, prefix: seq<Row>)
    returns (rows: seq<Row>, idx: nat)
    requires QuoteRowsInBounds(ts, q, base)
    ensures idx == base + |Kept(q.volume, |q.open|)|
    ensures rows == prefix + QuoteRows(ts, q, |q.open|, base, format)
  {
    rows := prefix;
    idx := base;
    var i := 0;
    while i < |q.open|
      invariant SamplesAppended(ts, q, base, format, prefix, i, idx, rows)
    {
      SamplesInBoundsPrefix(ts, q, |q.open|, i + 1, base);
      QuoteRowsStep(ts, q, i, base, format);
      if q.volume[i] > 0 {
        var row := Row(format(ts[i]), q.open[idx], q.high[idx], q.low[idx], q.close[idx], q.close[idx], q.volume[idx]);
        assert row == RowAt(ts, q, i, idx, format);
        rows := rows + [row];
        idx := idx + 1;
      }
      i := i + 1;
    }
  }

  /** The loop state of AppendQuoteRows after i samples. */
  predicate SamplesAppended(ts: seq<int>, q: Quote, base: nat, format: Formatter, prefix: seq<Row>, i: nat, idx: nat, rows: seq<Row>) {
    Covers(q) && i <= |q.open| && SamplesInBounds(ts, q, i, base) &&
    idx == base + |Kept(q.volume, i)| && rows == prefix + QuoteRows(ts, q, i, base, format)
  }

  lemma {:induction false} SamplesInBoundsPrefix(ts: seq<int>, q: Quote, n: nat, m: nat, base: nat)
    requires Covers(q) && m <= n <= |q.open| && SamplesInBounds(ts, q, n, base)
    ensures SamplesInBounds(ts, q, m, base)
    decreases n - m
  {
    if m < n {
      SamplesInBoundsPrefix(ts, q, n - 1, m, base);
    }
  }

  lemma QuoteRowsStep(ts: seq<int>, q: Quote, i: nat, base: nat, format: Formatter)
    requires Covers(q) && i < |q.open| && SamplesInBounds(ts, q, i + 1, base)
    ensures SamplesInBounds(ts, q, i, base)
    ensures q.volume[i] > 0 ==> i < |ts| && ValueIndexInBounds(q, base + |Kept(q.volume, i)|)
    ensures |Kept(q.volume, i + 1)| == |Kept(q.volume, i)| + (if q.volume[i] > 0 then 1 else 0)
    ensures QuoteRows(ts, q, i + 1, base, format) == QuoteRows(ts, q, i, base, format)
      + (if q.volume[i] > 0 then [RowAt(ts, q, i, base + |Kept(q.volume, i)|, format)] else [])
  {
  }

  lemma ResultRowsStep(r: ChartResult, qi: nat, format: Formatter)
    requires ResultRowsInBounds(r) && qi < |r.quotes|
    ensures BlocksInBounds(r, qi) && BlocksInBounds(r, qi + 1)
    ensures QuoteRowsInBounds(r.timestamps, r.quotes[qi], KeptCount(r, qi))
    ensures KeptCount(r, qi + 1) == KeptCount(r, qi) + |Kept(r.quotes[qi].volume, |r.quotes[qi].open|)|
    ensures ResultRows(r, qi + 1, format) == ResultRows(r, qi, format)
      + QuoteRows(r.timestamps, r.quotes[qi], |r.quotes[qi].open|, KeptCount(r, qi), format)
  {
    BlocksInBoundsPrefix(r, |r.quotes|, qi + 1);
    assert r.quotes[..qi + 1][..qi] == r.quotes[..qi];
  }
}
