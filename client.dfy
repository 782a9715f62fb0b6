/**
 * The YahooClient of yf/client.go: a ticker, a URL, a time selection and a price
 * interval, set up by NewYahooClient and its functional options, and the two
 * loaders that fetch the chart JSON and project it into candles or matrix rows.
 *
 * The HTTP transport and the JSON decoder are parameters: a Fetcher returns the
 * status code and the body read by the first ioutil.ReadAll, or the transport
 * error; a Decoder returns the decoded chart or the decoding error.
 */
module Client {
  import opened Wrappers
  import Decimal
  import Query
  import Chart

  /** What http.Get followed by the first ReadAll of the body produces. */
  datatype Response = TransportFailure(err: string) | Reply(status: int, body: string)

  type Fetcher = string -> Response

  /** What json.Unmarshal into ChartData produces. */
  datatype Decoded = DecodeFailure(err: string) | DecodedChart(chart: Chart.ChartData)

  type Decoder = string -> Decoded

  /**
   * How a loader ends: its metadata and data, an error (returned with the zero
   * metadata and a nil result), or a runtime panic on an index out of range.
   */
  datatype LoadOutcome<T> = Loaded(meta: Chart.Meta, data: T) | Failed(err: string) | Panicked

  /** The error text for a status other than 200. */
  function StatusMessage(status: int, body: string): (m: string)
    ensures |m| > 21 + |body| && m[..12] == "Statuscode: " && m[|m| - |body|..] == body
    ensures m[|m| - |body| - 9..|m| - |body|] == " - Body: "
    ensures Decimal.ParseInt(m[12..|m| - |body| - 9]) == Some(status)
  {
    var code := Decimal.FormatInt(status);
    Decimal.FormatIntRoundTrip(status);
    var head, sep := "Statuscode: ", " - Body: ";
    var m := head + code + sep + body;
    assert |head| == 12 && |sep| == 9 && |m| == 21 + |code| + |body|;
    assert m[..12] == head;
    assert m[12..|m| - |body| - 9] == code;
    assert m[|m| - |body|..] == body;
    assert m[|m| - |body| - 9..|m| - |body|] == sep;
    m
  }

  /**
   * The body the second ReadAll returns in the status branch: the first ReadAll
   * already consumed the response body, so nothing is left to read.
   */
  const Drained: string := ""

  /** The part both loaders share: the chart, or the error they return. */
  datatype Fetched = FetchError(err: string) | FetchedChart(chart: Chart.ChartData)

  function FetchChart(url: string, fetch: Fetcher, decode: Decoder): (r: Fetched)
    ensures fetch(url).TransportFailure? ==> r == FetchError(fetch(url).err)
    ensures fetch(url).Reply? && fetch(url).status != 200 ==> r == FetchError(StatusMessage(fetch(url).status, Drained))
    ensures fetch(url).Reply? && fetch(url).status == 200 && decode(fetch(url).body).DecodeFailure? ==>
      r == FetchError(decode(fetch(url).body).err)
    ensures r.FetchedChart? <==>
      fetch(url).Reply? && fetch(url).status == 200 && decode(fetch(url).body).DecodedChart?
    ensures r.FetchedChart? ==> r.chart == decode(fetch(url).body).chart
  {
    match fetch(url)
    case TransportFailure(e) => FetchError(e)
    case Reply(status, body) =>
      if status != 200 then FetchError(StatusMessage(status, Drained))
      else
        match decode(body)
        case DecodeFailure(e) => FetchError(e)
        case DecodedChart(chart) => FetchedChart(chart)
  }

  /** What Load returns for the client's URL. */
  function LoadOf(url: string, fetch: Fetcher, decode: Decoder, format: Chart.Formatter): (r: LoadOutcome<seq<Chart.Candle>>)
    ensures r.Failed? <==> FetchChart(url, fetch, decode).FetchError?
    ensures r.Failed? ==> r.err == FetchChart(url, fetch, decode).err
    ensures r.Panicked? <==> FetchChart(url, fetch, decode).FetchedChart? && !Chart.LoadInBounds(FetchChart(url, fetch, decode).chart.results)
    ensures r.Loaded? ==> r.meta == Chart.LastMeta(FetchChart(url, fetch, decode).chart.results)
  {
    match FetchChart(url, fetch, decode)
    case FetchError(e) => Failed(e)
    case FetchedChart(chart) =>
      if Chart.LoadInBounds(chart.results) then Loaded(Chart.LastMeta(chart.results), Chart.Candles(chart.results, format))
      else Panicked
  }

  /** What LoadMatrix returns for the client's URL; the matrix is its list of rows. */
  function LoadMatrixOf(url: string, fetch: Fetcher, decode: Decoder, format: Chart.Formatter): (r: LoadOutcome<seq<Chart.Row>>)
    ensures r.Failed? <==> FetchChart(url, fetch, decode).FetchError?
    ensures r.Failed? ==> r.err == FetchChart(url, fetch, decode).err
    ensures r.Panicked? <==> FetchChart(url, fetch, decode).FetchedChart? && !Chart.MatrixInBounds(FetchChart(url, fetch, decode).chart.results)
    ensures r.Loaded? ==> r.meta == Chart.LastMeta(FetchChart(url, fetch, decode).chart.results)
  {
    match FetchChart(url, fetch, decode)
    case FetchError(e) => Failed(e)
    case FetchedChart(chart) =>
      if Chart.MatrixInBounds(chart.results) then Loaded(Chart.LastMeta(chart.results), Chart.Rows(chart.results, format))
      else Panicked
  }

  class YahooClient {
    var ticker: string
    var url: string
    var timePeriod: Query.TimePeriod
    var interval: string

    function State(): Query.ClientState
      reads this
    {
      Query.ClientState(ticker, url, timePeriod, interval)
    }

    /** NewYahooClient: the defaults, then every option in order. */
    constructor (ticker: string, opts: seq<Query.ClientOption>, parse: Query.Parser)
      ensures State() == Query.NewClient(ticker, opts, parse)
    {
      this.ticker := ticker;
      interval := Query.OneDay;
      timePeriod := Query.TimePeriod(Query.Fixed, "1wk", "");
      url := Query.DefaultUrl(ticker);
      new;
      var k := 0;
      while k < |opts|
        invariant 0 <= k <= |opts|
        invariant State() == Query.ApplyAll(Query.Initial(ticker), opts[..k], parse)
      {
        Apply(opts[k], parse);
        Query.ApplyAllPrefixStep(Query.Initial(ticker), opts, k, parse);
        k := k + 1;
      }
      assert opts[..k] == opts;
    }

    /** Running one option's closure on this client. */
    method Apply(o: Query.ClientOption, parse: Query.Parser)
      modifies this
      ensures State() == Query.Applied(old(State()), o, parse)
    {
      match o {
        case WithSpecificDate(date) =>
          timePeriod := Query.TimePeriod(Query.Fixed, date, "");
        case WithPriceInterval(pi) =>
          interval := pi;
        case WithTimePeriod(start, end) =>
          timePeriod := Query.TimePeriod(Query.Period, start, end);
        case WithDateRange(_) =>
          timePeriod := Query.TimePeriod(Query.Range, "1wk", "");
      }
      UpdateUrl(parse);
    }

    /** updateUrl: only the URL changes, to the rendering of the other three fields. */
    method UpdateUrl(parse: Query.Parser)
      modifies this
      ensures State() == Query.Rendered(old(State()), parse)
    {
      var t := timePeriod;
      var tp := "range=1d";
      if t.kind == Query.Period {
        tp := "range=" + timePeriod.first;
      } else if t.kind == Query.Fixed {
        var st := Query.ConvertToUnixTimestamp(t.first + " 00:00", parse);
        var et := Query.ConvertToUnixTimestamp(t.first + " 23:59", parse);
        tp := "period1=" + st + "&period2=" + et;
      } else if t.kind == Query.Period {
        var st := Query.ConvertToUnixTimestamp(t.first + " 00:00", parse);
        var et := Query.ConvertToUnixTimestamp(t.second + " 23:59", parse);
        tp := "period1=" + st + "&period2=" + et;
      }
      assert tp == Query.TimeSegment(t, parse);
      url := Query.ChartPrefix + ticker + "?symbol=" + ticker + "&" + tp + "&interval=" + interval + Query.ChartSuffix;
    }

    /** Load: fetch, decode, and collect one candle per sample with a positive volume. */
    method Load(fetch: Fetcher, decode: Decoder, format: Chart.Formatter) returns (r: LoadOutcome<seq<Chart.Candle>>)
      ensures r == LoadOf(url, fetch, decode, format)
    {
      var fetched := Fetch(fetch, decode);
      match fetched
      case FetchError(e) =>
        r := Failed(e);
      case FetchedChart(chart) =>
        if !Chart.LoadInBounds(chart.results) {
          r := Panicked;
        } else {
          var md, candles := Chart.ProjectCandles(chart, format);
          r := Loaded(md, candles);
        }
    }

    /** LoadMatrix: fetch, decode, and add one row per sample with a positive volume. */
    method LoadMatrix(fetch: Fetcher, decode: Decoder, format: Chart.Formatter) returns (r: LoadOutcome<seq<Chart.Row>>)
      ensures r == LoadMatrixOf(url, fetch, decode, format)
    {
      var fetched := Fetch(fetch, decode);
      match fetched
      case FetchError(e) =>
        r := Failed(e);
      case FetchedChart(chart) =>
        if !Chart.MatrixInBounds(chart.results) {
          r := Panicked;
        } else {
          var md, rows := Chart.ProjectMatrix(chart, format);
          r := Loaded(md, rows);
        }
    }

    /**
     * The shared opening of both loaders, step by step: the request, the status test
     * and the decoding. FetchChart is its specification.
     */
    method Fetch(fetch: Fetcher, decode: Decoder) returns (r: Fetched)
      ensures r == FetchChart(url, fetch, decode)
    {
      var resp := fetch(url);
      match resp
      case TransportFailure(e) =>
        r := FetchError(e);
      case Reply(status, body) =>
        if status != 200 {
          var drained := Drained;
          r := FetchError(StatusMessage(status, drained));
        } else {
          var d := decode(body);
          match d
          case DecodeFailure(e) =>
            r := FetchError(e);
          case DecodedChart(chart) =>
            r := FetchedChart(chart);
        }
    }
  }

  // ---------------------------------------------------------------------------
  // Properties of the loaders.

  /** Both loaders fail in the same cases with the same error. */
  lemma LoadersFailAlike(url: string, fetch: Fetcher, decode: Decoder, format: Chart.Formatter)
    ensures LoadOf(url, fetch, decode, format).Failed? <==> LoadMatrixOf(url, fetch, decode, format).Failed?
    ensures LoadOf(url, fetch, decode, format).Failed? ==>
      LoadOf(url, fetch, decode, format).err == LoadMatrixOf(url, fetch, decode, format).err
    ensures LoadOf(url, fetch, decode, format).Failed? <==> FetchChart(url, fetch, decode).FetchError?
  {
  }

  /**
   * A successful Load yields exactly one candle per kept sample, in the order the
   * loops visit them, each built from that sample's own index.
   */
  lemma LoadedCandlesAreKeptSamples(url: string, fetch: Fetcher, decode: Decoder, format: Chart.Formatter)
    requires LoadOf(url, fetch, decode, format).Loaded?
    ensures var results := FetchChart(url, fetch, decode).chart.results;
      var cs := LoadOf(url, fetch, decode, format).data;
      Chart.LoadInBounds(results) && Chart.AllCovered(results) &&
      LoadOf(url, fetch, decode, format).meta == Chart.LastMeta(results) &&
      |cs| == |Chart.Positions(results)| &&
      forall k :: 0 <= k < |cs| ==>
        Chart.IsKeptSample(results, Chart.Positions(results)[k]) &&
        cs[k] == Chart.CandleOf(results, Chart.Positions(results)[k], format)
  {
    var results := FetchChart(url, fetch, decode).chart.results;
    Chart.CandlesFollowPositions(results, format);
  }

  /**
   * When both loaders succeed on the same response, they return the same metadata
   * and label their candles and rows alike: the k-th row carries the k-th candle's
   * timestamp.
   */
  lemma LoadersAgreeOnLabels(url: string, fetch: Fetcher, decode: Decoder, format: Chart.Formatter)
    requires LoadOf(url, fetch, decode, format).Loaded? && LoadMatrixOf(url, fetch, decode, format).Loaded?
    ensures var cs, rs := LoadOf(url, fetch, decode, format).data, LoadMatrixOf(url, fetch, decode, format).data;
      LoadOf(url, fetch, decode, format).meta == LoadMatrixOf(url, fetch, decode, format).meta &&
      |rs| == |cs| && forall k :: 0 <= k < |rs| ==> rs[k].key == cs[k].timestamp
  {
    var results := FetchChart(url, fetch, decode).chart.results;
    Chart.CandlesFollowPositions(results, format);
    Chart.RowsFollowPositions(results, format);
    var cs, rs := Chart.Candles(results, format), Chart.Rows(results, format);
    forall k | 0 <= k < |rs|
      ensures rs[k].key == cs[k].timestamp
    {
      var p := Chart.Positions(results)[k];
      assert cs[k] == Chart.CandleOf(results, p, format);
    }
  }

  // ---------------------------------------------------------------------------
  // The status error.

  /** As written: the error text for a bad status is the same whatever body the server sent. */
  lemma StatusErrorIgnoresBody(url: string, fetch: Fetcher, decode: Decoder, format: Chart.Formatter)
    requires fetch(url).Reply? && fetch(url).status != 200
    ensures LoadOf(url, fetch, decode, format) == Failed("Statuscode: " + Decimal.FormatInt(fetch(url).status) + " - Body: ")
    ensures LoadMatrixOf(url, fetch, decode, format) == Failed("Statuscode: " + Decimal.FormatInt(fetch(url).status) + " - Body: ")
  {
    assert StatusMessage(fetch(url).status, Drained) == "Statuscode: " + Decimal.FormatInt(fetch(url).status) + " - Body: ";
  }

  /** The error text for status 404 with the drained body. */
  lemma NotFoundMessage()
    ensures StatusMessage(404, Drained) == "Statuscode: 404 - Body: "
  {
    assert Decimal.FormatInt(404) == "404" by {
      Decimal.FormatIntRoundTrip(404);
    }
  }

  /** A 404 reply with a body: the body does not reach the error. */
  lemma NotFoundBodyIsLost(url: string, decode: Decoder, format: Chart.Formatter)
    ensures var fetch: Fetcher := _ => Reply(404, "Not Found");
      LoadOf(url, fetch, decode, format) == Failed("Statuscode: 404 - Body: ")
  {
    var fetch: Fetcher := _ => Reply(404, "Not Found");
    assert fetch(url) == Reply(404, "Not Found");
    NotFoundMessage();
    assert FetchChart(url, fetch, decode) == FetchError("Statuscode: 404 - Body: ");
  }

  /** The digits of a status never contain a space. */
  lemma FormattedHasNoSpace(n: int, k: nat)
    requires k < |Decimal.FormatInt(n)|
    ensures Decimal.FormatInt(n)[k] != ' '
  {
    Decimal.FormatIntRoundTrip(n);
  }

  /** In the error text, the status digits run from position 12 up to the first space. */
  lemma StatusCodeEndsAtSpace(status: int, body: string)
    ensures |StatusMessage(status, body)| > 12 + |Decimal.FormatInt(status)|
    ensures StatusMessage(status, body)[12 + |Decimal.FormatInt(status)|] == ' '
    ensures forall k :: 12 <= k < 12 + |Decimal.FormatInt(status)| ==> StatusMessage(status, body)[k] != ' '
  {
    var f := Decimal.FormatInt(status);
    forall k | 12 <= k < 12 + |f|
      ensures StatusMessage(status, body)[k] != ' '
    {
      FormattedHasNoSpace(status, k - 12);
    }
  }

  /**
   * Corrected: with the body read once and reported, the error text determines
   * both the status and the body.
   */
  lemma StatusMessageInjective(s1: int, b1: string, s2: int, b2: string)
    ensures StatusMessage(s1, b1) == StatusMessage(s2, b2) ==> s1 == s2 && b1 == b2
  {
    if StatusMessage(s1, b1) != StatusMessage(s2, b2) {
      return;
    }
    var f1, f2 := Decimal.FormatInt(s1), Decimal.FormatInt(s2);
    var m := StatusMessage(s1, b1);
    var head := "Statuscode: ";
    var sep := " - Body: ";
    assert m == head + f1 + sep + b1;
    assert m == head + f2 + sep + b2;
    assert |head| == 12;
    StatusCodeEndsAtSpace(s1, b1);
    StatusCodeEndsAtSpace(s2, b2);
    assert f1 == m[12..12 + |f1|] == f2;
    Decimal.FormatIntRoundTrip(s1);
    Decimal.FormatIntRoundTrip(s2);
    assert b1 == m[12 + |f1| + |sep|..] == b2;
  }
}
