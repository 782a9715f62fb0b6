/**
 * The request configuration of the client: the time selection, the price
 * interval and the query URL rendered from them, as pure values. The class
 * YahooClient (module Client) updates its fields in place and is proved to
 * follow these definitions.
 */
module Query {

  import opened Wrappers
  import Decimal

  // Price intervals (PriceInterval).
  const OneMinute: string := "1m"
  const FiveMinutes: string := "5m"
  const ThirtyMinutes: string := "30m"
  const OneHour: string := "1h"
  const FourHours: string := "4h"
  const OneDay: string := "1d"

  // Date ranges (DateRange).
  const RangeOneDay: string := "1d"
  const RangeOneWeek: string := "1wk"
  const RangeOneMonth: string := "1mo"
  const RangeOneYear: string := "1y"

  // Time period kinds (TimePeriodType). The field is a plain integer, so any
  // other value can be stored in it as well.
  const Fixed: int := 1
  const Period: int := 2
  const Range: int := 3

  datatype TimePeriod = TimePeriod(kind: int, first: string, second: string)

  /** The fields of a YahooClient. */
  datatype ClientState = ClientState(ticker: string, url: string, timePeriod: TimePeriod, interval: string)

  /** The four functional options; each stands for the closure its With* function returns. */
  datatype ClientOption =
    | WithSpecificDate(date: string)
    | WithPriceInterval(pi: string)
    | WithTimePeriod(start: string, end: string)
    | WithDateRange(dr: string)

  /** time.Parse with the layout "2006-01-02 15:04" followed by Unix(): seconds, or None on a parse error. */
  type Parser = string -> Option<int>

  /** convertToUnixTimestamp: the Unix seconds in decimal, or "" for an empty or unparsable date. */
  function ConvertToUnixTimestamp(date: string, parse: Parser): (r: string)
    ensures r == "" <==> date == "" || parse(date).None?
    ensures r != "" ==> Decimal.IsDecimal(r) && Decimal.ParseInt(r) == parse(date)
  {
    if date != "" then
      match parse(date)
      case Some(t) => Decimal.FormatIntRoundTrip(t); Decimal.FormatInt(t)
      case None => ""
    else ""
  }

  /** The time-selection part of the query, as updateUrl computes it (tp). */
  function TimeSegment(tp: TimePeriod, parse: Parser): (seg: string)
    ensures tp.kind != Fixed <==> |seg| >= 6 && seg[..6] == "range="
  {
    if tp.kind == Period then
      "range=" + tp.first
    else if tp.kind == Fixed then
      var seg := "period1=" + ConvertToUnixTimestamp(tp.first + " 00:00", parse)
        + "&period2=" + ConvertToUnixTimestamp(tp.first + " 23:59", parse);
      assert seg[1] != "range="[1];
      seg
    else if tp.kind == Period then
      // never taken: the first test already caught this kind
      "period1=" + ConvertToUnixTimestamp(tp.first + " 00:00", parse)
      + "&period2=" + ConvertToUnixTimestamp(tp.second + " 23:59", parse)
    else
      "range=1d"
  }

  const ChartPrefix: string := "https://query1.finance.yahoo.com/v8/finance/chart/"
  const ChartSuffix: string := "&includePrePost=true&events=div%7Csplit%7Cearn&corsDomain=finance.yahoo.com"

  /** The URL updateUrl stores: the v8 chart endpoint for the ticker with the query parameters. */
  function RenderUrl(ticker: string, tp: TimePeriod, interval: string, parse: Parser): string
  {
    ChartPrefix + ticker + "?symbol=" + ticker + "&" + TimeSegment(tp, parse)
    + "&interval=" + interval + ChartSuffix
  }

  /** The URL NewYahooClient stores before any option runs (the v7 download endpoint). */
  function DefaultUrl(ticker: string): string
  {
    "https://query1.finance.yahoo.com/v7/finance/download/" + ticker + "?range=" + RangeOneMonth
    + "&interval=" + OneDay + "&events=history&corsDomain=finance.yahoo.com"
  }

  /** The client NewYahooClient builds before applying its options. */
  function Initial(ticker: string): ClientState
  {
    ClientState(ticker, DefaultUrl(ticker), TimePeriod(Fixed, "1wk", ""), OneDay)
  }

  /** updateUrl: re-render the URL from the other fields. */
  function Rendered(s: ClientState, parse: Parser): ClientState
  {
    s.(url := RenderUrl(s.ticker, s.timePeriod, s.interval, parse))
  }

  /** Running one option's closure on a client. */
  function Applied(s: ClientState, o: ClientOption, parse: Parser): (r: ClientState)
    ensures r.ticker == s.ticker
    ensures r.url == RenderUrl(r.ticker, r.timePeriod, r.interval, parse)
    ensures o.WithPriceInterval? ==> r.timePeriod == s.timePeriod && r.interval == o.pi
    ensures !o.WithPriceInterval? ==> r.interval == s.interval
    ensures o.WithDateRange? ==> r.timePeriod.kind == Range && TimeSegment(r.timePeriod, parse) == "range=1d"
  {
    match o
    case WithSpecificDate(date) => Rendered(s.(timePeriod := TimePeriod(Fixed, date, "")), parse)
    case WithPriceInterval(pi) => Rendered(s.(interval := pi), parse)
    case WithTimePeriod(start, end) => Rendered(s.(timePeriod := TimePeriod(Period, start, end)), parse)
    case WithDateRange(_) => Rendered(s.(timePeriod := TimePeriod(Range, "1wk", "")), parse)
  }

  /** Running the options in order, first to last. */
  function ApplyAll(s: ClientState, opts: seq<ClientOption>, parse: Parser): (r: ClientState)
    ensures r.ticker == s.ticker
    ensures |opts| == 0 ==> r == s
    ensures |opts| > 0 ==> r.url == RenderUrl(r.ticker, r.timePeriod, r.interval, parse)
  {
    if |opts| == 0 then s else Applied(ApplyAll(s, opts[..|opts| - 1], parse), opts[|opts| - 1], parse)
  }

  /** NewYahooClient(ticker, opts...). */
  function NewClient(ticker: string, opts: seq<ClientOption>, parse: Parser): (c: ClientState)
    ensures c.ticker == ticker
    ensures |opts| == 0 ==> c.url == DefaultUrl(ticker) && c.timePeriod == TimePeriod(Fixed, "1wk", "") && c.interval == OneDay
    ensures |opts| > 0 ==> c.url == RenderUrl(ticker, c.timePeriod, c.interval, parse)
  {
    ApplyAll(Initial(ticker), opts, parse)
  }

  // ---------------------------------------------------------------------------
  // Reference definitions: what the options leave behind, read off the option list.

  /** The time selection an option installs, if it installs one. */
  function SelectionOf(o: ClientOption): Option<TimePeriod>
  {
    match o
    case WithSpecificDate(date) => Some(TimePeriod(Fixed, date, ""))
    case WithPriceInterval(_) => None
    case WithTimePeriod(start, end) => Some(TimePeriod(Period, start, end))
    case WithDateRange(_) => Some(TimePeriod(Range, "1wk", ""))
  }

  /** The selection installed by the last option that installs one, or dflt. */
  function LastSelection(opts: seq<ClientOption>, dflt: TimePeriod): TimePeriod
  {
    if |opts| == 0 then dflt
    else match SelectionOf(opts[|opts| - 1])
      case Some(tp) => tp
      case None => LastSelection(opts[..|opts| - 1], dflt)
  }

  /** The interval set by the last WithPriceInterval, or dflt. */
  function LastInterval(opts: seq<ClientOption>, dflt: string): string
  {
    if |opts| == 0 then dflt
    else if opts[|opts| - 1].WithPriceInterval? then opts[|opts| - 1].pi
    else LastInterval(opts[..|opts| - 1], dflt)
  }

  // ---------------------------------------------------------------------------
  // Properties.

  /** Without options the client keeps its defaults and the hard-coded v7 URL. */
  lemma NoOptionDefaults(ticker: string, parse: Parser)
    ensures NewClient(ticker, [], parse) ==
            ClientState(ticker, DefaultUrl(ticker), TimePeriod(Fixed, "1wk", ""), "1d")
  {
  }

  /** The default URL is not something updateUrl can produce, whatever the fields. */
  lemma DefaultUrlIsNotRendered(ticker: string, ticker': string, tp: TimePeriod, interval: string, parse: Parser)
    ensures DefaultUrl(ticker) != RenderUrl(ticker', tp, interval, parse)
  {
    var d := DefaultUrl(ticker);
    var u := RenderUrl(ticker', tp, interval, parse);
    assert d[34] == '7';
    assert u[34] == '8';
  }

  /** The rendered URL is the v8 chart endpoint and ends with the fixed parameters. */
  lemma RenderedUrlShape(ticker: string, tp: TimePeriod, interval: string, parse: Parser)
    ensures ChartPrefix + ticker + "?symbol=" + ticker + "&" <= RenderUrl(ticker, tp, interval, parse)
    ensures var u := RenderUrl(ticker, tp, interval, parse);
            |u| >= |ChartSuffix| && u[|u| - |ChartSuffix|..] == ChartSuffix
  {
  }

  /** Running a list of options in two parts is running them in one go: options compose left to right. */
  lemma {:induction false} ApplyAllAppend(s: ClientState, a: seq<ClientOption>, b: seq<ClientOption>, parse: Parser)
    ensures ApplyAll(s, a + b, parse) == ApplyAll(ApplyAll(s, a, parse), b, parse)
    decreases |b|
  {
    if |b| == 0 {
      assert a + b == a;
    } else {
      var b' := b[..|b| - 1];
      assert (a + b)[..|a + b| - 1] == a + b';
      assert (a + b)[|a + b| - 1] == b[|b| - 1];
      ApplyAllAppend(s, a, b', parse);
    }
  }

  /** One more option of the list: running its first k + 1 options applies option k last. */
  lemma ApplyAllPrefixStep(s: ClientState, opts: seq<ClientOption>, k: nat, parse: Parser)
    requires k < |opts|
    ensures ApplyAll(s, opts[..k + 1], parse) == Applied(ApplyAll(s, opts[..k], parse), opts[k], parse)
  {
    assert opts[..k + 1][..k] == opts[..k];
  }

  /** Each option's closure is idempotent. */
  lemma ApplyTwiceIsOnce(s: ClientState, o: ClientOption, parse: Parser)
    ensures Applied(Applied(s, o, parse), o, parse) == Applied(s, o, parse)
  {
  }

  /** Applying an option twice in a row, at any point of the list, is the same as applying it once. */
  lemma ApplyAllDuplicate(s: ClientState, a: seq<ClientOption>, o: ClientOption, b: seq<ClientOption>, parse: Parser)
    ensures ApplyAll(s, a + [o, o] + b, parse) == ApplyAll(s, a + [o] + b, parse)
  {
    var mid := ApplyAll(s, a, parse);
    var once := Applied(mid, o, parse);
    ApplyAllAppend(s, a + [o], b, parse);
    ApplyAllAppend(s, a + [o, o], b, parse);
    assert (a + [o, o])[..|a| + 1] == a + [o];
    assert (a + [o])[..|a|] == a;
    assert ApplyAll(s, a + [o], parse) == once;
    assert ApplyAll(s, a + [o, o], parse) == Applied(once, o, parse);
    ApplyTwiceIsOnce(mid, o, parse);
  }

  /** A time selection replaces any earlier one wholesale: the earlier option leaves no trace. */
  lemma SelectionOverwrites(s: ClientState, o1: ClientOption, o2: ClientOption, parse: Parser)
    requires SelectionOf(o1).Some? && SelectionOf(o2).Some?
    ensures Applied(Applied(s, o1, parse), o2, parse) == Applied(s, o2, parse)
  {
  }

  /** Setting the interval and setting the time selection commute. */
  lemma IntervalCommutesWithSelection(s: ClientState, pi: string, o: ClientOption, parse: Parser)
    requires SelectionOf(o).Some?
    ensures Applied(Applied(s, WithPriceInterval(pi), parse), o, parse)
         == Applied(Applied(s, o, parse), WithPriceInterval(pi), parse)
  {
  }

  /**
   * After a list of options the ticker is unchanged, the selection is the one of the
   * last option that sets one, the interval that of the last WithPriceInterval, and the
   * URL is rendered from them, unless the list is empty.
   */
  lemma {:induction false} ApplyAllLastWriteWins(s: ClientState, opts: seq<ClientOption>, parse: Parser)
    ensures var r := ApplyAll(s, opts, parse);
            r.ticker == s.ticker &&
            r.timePeriod == LastSelection(opts, s.timePeriod) &&
            r.interval == LastInterval(opts, s.interval) &&
            r.url == if |opts| == 0 then s.url else RenderUrl(r.ticker, r.timePeriod, r.interval, parse)
  {
    if |opts| > 0 {
      ApplyAllLastWriteWins(s, opts[..|opts| - 1], parse);
    }
  }

  /** The client NewYahooClient returns, read off its option list. */
  lemma NewClientFields(ticker: string, opts: seq<ClientOption>, parse: Parser)
    ensures var c := NewClient(ticker, opts, parse);
            c.ticker == ticker &&
            c.timePeriod == LastSelection(opts, TimePeriod(Fixed, "1wk", "")) &&
            c.interval == LastInterval(opts, OneDay) &&
            (c.url == DefaultUrl(ticker) <==> |opts| == 0) &&
            (|opts| > 0 ==> c.url == RenderUrl(ticker, c.timePeriod, c.interval, parse))
  {
    ApplyAllLastWriteWins(Initial(ticker), opts, parse);
    var c := NewClient(ticker, opts, parse);
    DefaultUrlIsNotRendered(ticker, ticker, c.timePeriod, c.interval, parse);
  }

  /** WithDateRange ignores its argument: it always stores {TPT_RANGE, "1wk"}, which renders as range=1d. */
  lemma DateRangeIgnoresArgument(s: ClientState, dr: string, dr': string, parse: Parser)
    ensures Applied(s, WithDateRange(dr), parse) == Applied(s, WithDateRange(dr'), parse)
    ensures Applied(s, WithDateRange(dr), parse).timePeriod == TimePeriod(Range, "1wk", "")
    ensures TimeSegment(Applied(s, WithDateRange(dr), parse).timePeriod, parse) == "range=1d"
  {
  }

  /** Every kind other than TPT_FIXED and TPT_PERIOD, TPT_RANGE included, falls through to range=1d. */
  lemma OtherKindsRenderOneDay(tp: TimePeriod, parse: Parser)
    requires tp.kind != Fixed && tp.kind != Period
    ensures TimeSegment(tp, parse) == "range=1d"
  {
  }

  /** WithTimePeriod renders range=<start>; the end date never reaches the URL. */
  lemma TimePeriodRendersStartOnly(s: ClientState, start: string, end: string, end': string, parse: Parser)
    ensures TimeSegment(TimePeriod(Period, start, end), parse) == "range=" + start
    ensures Applied(s, WithTimePeriod(start, end), parse).url == Applied(s, WithTimePeriod(start, end'), parse).url
  {
  }

  /** The decimal Unix seconds of a parse outcome, or "" when the parse failed. */
  function StampOf(t: Option<int>): string
  {
    match t
    case Some(secs) => Decimal.FormatInt(secs)
    case None => ""
  }

  /**
   * A fixed date d renders as the whole-day window period1=<d 00:00>&period2=<d 23:59>;
   * a date that does not parse leaves the value empty, so rendering never fails.
   */
  lemma FixedDateRendersWindow(date: string, second: string, parse: Parser)
    ensures TimeSegment(TimePeriod(Fixed, date, second), parse)
         == "period1=" + StampOf(parse(date + " 00:00")) + "&period2=" + StampOf(parse(date + " 23:59"))
  {
    assert date + " 00:00" != "" by { assert |date + " 00:00"| > 0; }
    assert date + " 23:59" != "" by { assert |date + " 23:59"| > 0; }
  }

  /** If u == p + x + q and u == p + y + q, then x == y. */
  lemma CancelAround(p: string, x: string, y: string, q: string)
    requires p + x + q == p + y + q
    ensures x == y
  {
    var u := p + x + q;
    assert |x| == |y|;
    assert x == u[|p|..|p| + |x|];
    assert y == (p + y + q)[|p|..|p| + |y|];
  }

  /** For a given ticker and interval, two selections give the same URL exactly when they render the same segment. */
  lemma UrlDeterminedBySegment(ticker: string, tp1: TimePeriod, tp2: TimePeriod, interval: string, parse: Parser)
    ensures RenderUrl(ticker, tp1, interval, parse) == RenderUrl(ticker, tp2, interval, parse)
        <==> TimeSegment(tp1, parse) == TimeSegment(tp2, parse)
  {
    var p := ChartPrefix + ticker + "?symbol=" + ticker + "&";
    var q := "&interval=" + interval + ChartSuffix;
    var x, y := TimeSegment(tp1, parse), TimeSegment(tp2, parse);
    assert RenderUrl(ticker, tp1, interval, parse) == p + x + q;
    assert RenderUrl(ticker, tp2, interval, parse) == p + y + q;
    if p + x + q == p + y + q {
      CancelAround(p, x, y, q);
    }
  }

  /** The options of the command-line entry point: five-minute prices, a one-day date range. */
  lemma EntryPointExample(parse: Parser)
    ensures var c := NewClient("ZAL.DE", [WithPriceInterval(FiveMinutes), WithDateRange(RangeOneDay)], parse);
            c.interval == "5m" && c.timePeriod == TimePeriod(Range, "1wk", "") &&
            c.url == RenderUrl("ZAL.DE", TimePeriod(Range, "1wk", ""), "5m", parse) &&
            TimeSegment(c.timePeriod, parse) == "range=1d"
  {
    var opts := [WithPriceInterval(FiveMinutes), WithDateRange(RangeOneDay)];
    assert opts[..1] == [WithPriceInterval(FiveMinutes)];
    assert opts[..1][..0] == [];
    var s1 := Applied(Initial("ZAL.DE"), WithPriceInterval(FiveMinutes), parse);
    assert ApplyAll(Initial("ZAL.DE"), opts[..1], parse) == s1;
    assert NewClient("ZAL.DE", opts, parse) == Applied(s1, WithDateRange(RangeOneDay), parse);
  }
}
