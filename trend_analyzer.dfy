/**
 * The trend analyzer run on a timer: read the last two hours of ORCL rows in
 * ascending timestamp order, send a pipeline-test heartbeat when fewer than
 * five are found, otherwise compute the current price, SMA-5, SMA-20 and the
 * 3-point price trend, decide BUY / SELL / no signal, and send exactly one
 * notification (alert, update, heartbeat or error).
 *
 * The whole cycle is a function of the table and of the clock reading `now`;
 * the notification it publishes is part of the returned `Invocation`.
 */
module TrendAnalyzer {
  import opened StockData

  const Ticker: string := "ORCL"
  /** Length of the analysed window: two hours, in seconds. */
  const WindowSeconds: int := 2 * 60 * 60
  /** Below this many rows the cycle only sends the heartbeat. */
  const MinPoints: nat := 5
  const ShortPeriod: nat := 5
  const LongPeriod: nat := 20
  /** With fewer rows than this, SMA-20 averages all rows. */
  const LongHistory: nat := 10
  /** A trend larger than this in absolute value is a signal by itself. */
  const SignificantMove: real := 1.0

  // ---------------------------------------------------------------------
  // The window query
  // ---------------------------------------------------------------------

  /**
   * `table.query` with `ticker = :ticker AND timestamp BETWEEN :start AND :end`
   * and `ScanIndexForward=True`: the rows of `ticker` whose timestamp lies in
   * [start, end], in ascending timestamp order, each exactly once.
   */
  function Query(table: Table, ticker: string, start: int, end: int): (items: seq<Row>)
    requires WellKeyed(table)
    ensures forall i :: 0 <= i < |items| ==> KeyOf(items[i]) in table && table[KeyOf(items[i])] == items[i]
    ensures forall i :: 0 <= i < |items| ==> items[i].ticker == ticker && start <= items[i].timestamp <= end
    ensures forall i, j :: 0 <= i < j < |items| ==> items[i].timestamp < items[j].timestamp
    ensures forall k :: k in table && k.0 == ticker && start <= k.1 <= end ==> table[k] in items
    decreases end - start
  {
    if start > end then []
    else
      var rest := Query(table, ticker, start + 1, end);
      if (ticker, start) in table then [table[(ticker, start)]] + rest else rest
  }

  /** The rows the handler reads at clock reading `now`. */
  function Window(table: Table, now: int): seq<Row>
    requires WellKeyed(table)
  {
    Query(table, Ticker, now - WindowSeconds, now)
  }

  function Prices(items: seq<Row>): seq<real> {
    seq(|items|, i requires 0 <= i < |items| => items[i].price)
  }

  // ---------------------------------------------------------------------
  // Averages
  // ---------------------------------------------------------------------

  function Sum(s: seq<real>): real {
    if s == [] then 0.0 else s[0] + Sum(s[1..])
  }

  function Mean(s: seq<real>): real
    requires |s| > 0
  {
    Sum(s) / (|s| as real)
  }

  function Min(a: int, b: int): int {
    if a <= b then a else b
  }

  /** Python's `s[-k:]` for k >= 1: the last min(k, |s|) elements. */
  function Last(s: seq<real>, k: nat): (w: seq<real>)
    requires k >= 1
    ensures |s| <= k ==> w == s
    ensures k < |s| ==> |w| == k && s[..|s| - k] + w == s
  {
    s[|s| - Min(k, |s|)..]
  }

  function SeqMin(s: seq<real>): (m: real)
    requires |s| > 0
    ensures m in s
    ensures forall i :: 0 <= i < |s| ==> m <= s[i]
  {
    if |s| == 1 then s[0]
    else
      var rest := SeqMin(s[1..]);
      if s[0] <= rest then s[0] else rest
  }

  function SeqMax(s: seq<real>): (m: real)
    requires |s| > 0
    ensures m in s
    ensures forall i :: 0 <= i < |s| ==> s[i] <= m
  {
    if |s| == 1 then s[0]
    else
      var rest := SeqMax(s[1..]);
      if s[0] >= rest then s[0] else rest
  }

  /** `sum(prices[-5:]) / min(5, len(prices))` */
  function Sma5(prices: seq<real>): real
    requires |prices| > 0
  {
    Sum(Last(prices, ShortPeriod)) / (Min(ShortPeriod, |prices|) as real)
  }

  /** SMA-20 over the last min(20, n) prices, or over all prices when n < 10. */
  function Sma20(prices: seq<real>): real
    requires |prices| > 0
  {
    if |prices| >= LongHistory then
      Sum(Last(prices, LongPeriod)) / (Min(LongPeriod, |prices|) as real)
    else
      Sum(prices) / (|prices| as real)
  }

  lemma {:induction false} SumAtLeast(s: seq<real>, lo: real)
    requires forall i :: 0 <= i < |s| ==> lo <= s[i]
    ensures (|s| as real) * lo <= Sum(s)
  {
    if s != [] {
      SumAtLeast(s[1..], lo);
      assert (|s| as real) * lo == lo + (|s[1..]| as real) * lo;
    }
  }

  lemma {:induction false} SumAtMost(s: seq<real>, hi: real)
    requires forall i :: 0 <= i < |s| ==> s[i] <= hi
    ensures Sum(s) <= (|s| as real) * hi
  {
    if s != [] {
      SumAtMost(s[1..], hi);
      assert (|s| as real) * hi == hi + (|s[1..]| as real) * hi;
    }
  }

  /** An average lies within any bounds of the values averaged. */
  lemma MeanWithin(s: seq<real>, lo: real, hi: real)
    requires |s| > 0
    requires forall i :: 0 <= i < |s| ==> lo <= s[i] <= hi
    ensures lo <= Mean(s) <= hi
  {
    SumAtLeast(s, lo);
    SumAtMost(s, hi);
    DivideBounds(Sum(s), |s| as real, lo, hi);
  }

  lemma DivideBounds(total: real, n: real, lo: real, hi: real)
    requires n > 0.0
    requires n * lo <= total <= n * hi
    ensures lo <= total / n <= hi
  {
  }

  /** The extremes of a suffix lie within the extremes of the whole sequence. */
  lemma SuffixWithinRange(s: seq<real>, from: nat)
    requires from < |s|
    ensures SeqMin(s) <= SeqMin(s[from..]) && SeqMax(s[from..]) <= SeqMax(s)
  {
  }

  /**
   * SMA-5 is the mean of the last min(5, n) prices and lies between the
   * smallest and largest of them, hence within the range of all prices.
   */
  lemma Sma5IsBoundedMean(prices: seq<real>)
    requires |prices| > 0
    ensures var w := Last(prices, ShortPeriod);
      && |w| == Min(5, |prices|)
      && Sma5(prices) == Mean(w)
      && SeqMin(prices) <= SeqMin(w) <= Sma5(prices) <= SeqMax(w) <= SeqMax(prices)
  {
    var w := Last(prices, ShortPeriod);
    MeanWithin(w, SeqMin(w), SeqMax(w));
    SuffixWithinRange(prices, |prices| - |w|);
  }

  /**
   * SMA-20 is the mean of the last min(20, n) prices when n >= 10 and of all
   * n prices when n < 10; either way it lies within the range it averages.
   */
  lemma Sma20IsBoundedMean(prices: seq<real>)
    requires |prices| > 0
    ensures var w := if |prices| >= 10 then Last(prices, LongPeriod) else prices;
      && |w| == (if |prices| >= 10 then Min(20, |prices|) else |prices|)
      && Sma20(prices) == Mean(w)
      && SeqMin(prices) <= SeqMin(w) <= Sma20(prices) <= SeqMax(w) <= SeqMax(prices)
  {
    var w := if |prices| >= 10 then Last(prices, LongPeriod) else prices;
    MeanWithin(w, SeqMin(w), SeqMax(w));
    SuffixWithinRange(prices, |prices| - |w|);
  }

  /**
   * The n < 10 fallback of SMA-20 computes the same value as its main
   * branch would: both average every price when fewer than 20 exist.
   */
  lemma Sma20FallbackAgrees(prices: seq<real>)
    requires 0 < |prices| < LongHistory
    ensures Sma20(prices) == Sum(Last(prices, LongPeriod)) / (Min(LongPeriod, |prices|) as real)
  {
  }

  /** With exactly five rows both averages cover the same five prices. */
  lemma FivePointAveragesCoincide(prices: seq<real>)
    requires |prices| == MinPoints
    ensures Sma5(prices) == Sma20(prices)
  {
  }

  lemma Sma5Example()
    ensures Sma5([10.0, 11.0, 12.0, 13.0, 14.0]) == 12.0
    ensures Sma5([10.0, 11.0, 12.0]) == 11.0
  {
  }

  /** Eight rows: SMA-20 is the mean of all eight. */
  lemma Sma20EightPointExample()
    ensures Sma20([1.0, 2.0, 3.0, 4.0, 5.0, 6.0, 7.0, 8.0]) == 4.5
  {
  }

  // ---------------------------------------------------------------------
  // The signal
  // ---------------------------------------------------------------------

  datatype Signal = Buy | Sell

  /** `prices[-1] - prices[-3]`, computed only when there are three prices. */
  function PriceTrend(prices: seq<real>): (t: Option<real>)
    ensures t.Some? <==> |prices| >= 3
  {
    if |prices| >= 3 then Some(prices[|prices| - 1] - prices[|prices| - 3]) else None
  }

  /**
   * The ordered rule chain: BUY on rising averages and a rising trend, else
   * SELL on falling averages and a falling trend, else a signal in the
   * trend's direction when the trend exceeds 1.0 in size, else none.
   */
  function Decide(sma5: real, sma20: real, trend: real): (s: Option<Signal>)
    ensures s == Some(Buy) <==> trend > 0.0 && (sma5 > sma20 || trend > SignificantMove)
    ensures s == Some(Sell) <==> trend < 0.0 && (sma5 < sma20 || trend < -SignificantMove)
    ensures s == Some(Buy) ==> trend > 0.0
    ensures s == Some(Sell) ==> trend < 0.0
    ensures trend == 0.0 ==> s == None
  {
    if sma5 > sma20 && trend > 0.0 then Some(Buy)
    else if sma5 < sma20 && trend < 0.0 then Some(Sell)
    else if (if trend >= 0.0 then trend else -trend) > SignificantMove then
      (if trend > 0.0 then Some(Buy) else Some(Sell))
    else None
  }

  /** A nearly flat market with a small uptick still gives BUY, by the first rule. */
  lemma SmallUptickAboveLongAverageIsBuy()
    ensures Decide(10.01, 10.0, 0.1) == Some(Buy)
    ensures Decide(12.0, 10.0, 2.0) == Some(Buy)
  {
  }

  /** With no trend (fewer than three prices) there is no signal. */
  function SignalOf(prices: seq<real>): (s: Option<Signal>)
    requires |prices| > 0
    ensures s.Some? ==> |prices| >= 3
  {
    match PriceTrend(prices)
    case None => None
    case Some(t) => Decide(Sma5(prices), Sma20(prices), t)
  }

  /** With five prices only the significant-move rule can produce a signal. */
  lemma FivePointsOnlySignificantMoves(prices: seq<real>)
    requires |prices| == MinPoints
    ensures var t := prices[4] - prices[2];
      SignalOf(prices) == (if t > SignificantMove then Some(Buy)
                           else if t < -SignificantMove then Some(Sell)
                           else None)
  {
  }

  // ---------------------------------------------------------------------
  // The cycle
  // ---------------------------------------------------------------------

  /** What one cycle decided to report. */
  datatype Outcome =
    | Heartbeat(dataPoints: nat)
    | Alert(signal: Signal, price: real, sma5: real, sma20: real, dataPoints: nat)
    | Update(price: real, sma5: real, sma20: real, dataPoints: nat)
    | Failure(detail: string)

  /**
   * The computation inside the handler's `try`, from the rows the query
   * returned. The price reported is the last row's.
   */
  function Evaluate(items: seq<Row>): (o: Outcome)
    ensures o.Heartbeat? <==> |items| < MinPoints
    ensures o.Heartbeat? ==> o.dataPoints == |items|
    ensures !o.Failure?
    ensures o.Alert? || o.Update? ==>
      && o.dataPoints == |items| >= MinPoints
      && o.price == items[|items| - 1].price
    ensures o.Alert? ==> SignalOf(Prices(items)) == Some(o.signal) && o.sma5 == Sma5(Prices(items)) && o.sma20 == Sma20(Prices(items))
    ensures o.Update? ==> SignalOf(Prices(items)) == None && o.sma5 == Sma5(Prices(items)) && o.sma20 == Sma20(Prices(items))
  {
    if |items| < MinPoints then Heartbeat(|items|)
    else
      var prices := Prices(items);
      var current := prices[|prices| - 1];
      var sma5 := Sma5(prices);
      var sma20 := Sma20(prices);
      match SignalOf(prices)
      case Some(s) => Alert(s, current, sma5, sma20, |items|)
      case None => Update(current, sma5, sma20, |items|)
  }

  /** The subject of the published notification. */
  datatype Subject =
    | PipelineTest
    | SignalAlert(signal: Signal, price: real)
    | StockUpdate(price: real)
    | PipelineError

  /** The body of the published notification; `time` is the clock reading. */
  datatype Message =
    | TestMessage(dataPoints: nat, time: int)
    | ReportMessage(price: real, sma5: real, sma20: real, dataPoints: nat, time: int)
    | ErrorMessage(detail: string, time: int)

  datatype Notification = Notification(subject: Subject, message: Message)

  datatype ReplyBody = TestAlertSent | SignalSent(signal: Signal) | UpdateSent | ErrorText(detail: string)

  datatype Reply = Reply(statusCode: int, body: ReplyBody)

  /** Everything one invocation does that is visible outside: what it published and what it returned. */
  datatype Invocation = Invocation(published: seq<Notification>, reply: Reply)

  /** The table as the query sees it, or the error the query raised. */
  datatype Backend = Available(table: Table) | Unavailable(detail: string)

  function Notify(o: Outcome, now: int): Notification {
    match o
    case Heartbeat(n) => Notification(PipelineTest, TestMessage(n, now))
    case Alert(s, p, s5, s20, n) => Notification(SignalAlert(s, p), ReportMessage(p, s5, s20, n, now))
    case Update(p, s5, s20, n) => Notification(StockUpdate(p), ReportMessage(p, s5, s20, n, now))
    case Failure(e) => Notification(PipelineError, ErrorMessage(e, now))
  }

  function ReplyTo(o: Outcome): Reply {
    match o
    case Heartbeat(_) => Reply(200, TestAlertSent)
    case Alert(s, _, _, _, _) => Reply(200, SignalSent(s))
    case Update(_, _, _, _) => Reply(200, UpdateSent)
    case Failure(e) => Reply(500, ErrorText(e))
  }

  /**
   * `lambda_handler`: one query, one evaluation, exactly one notification.
   * An error from the query gives the error notification and status 500;
   * every other path returns status 200.
   */
  function Handler(backend: Backend, now: int): (inv: Invocation)
    requires backend.Available? ==> WellKeyed(backend.table)
    ensures |inv.published| == 1
    ensures inv.reply.statusCode == (if backend.Unavailable? then 500 else 200)
    ensures inv.published[0].subject == PipelineError <==> backend.Unavailable?
    ensures backend.Unavailable? ==> inv.published[0].message == ErrorMessage(backend.detail, now)
    ensures backend.Available? && |Window(backend.table, now)| < MinPoints ==>
      && inv.published[0] == Notification(PipelineTest, TestMessage(|Window(backend.table, now)|, now))
      && inv.reply == Reply(200, TestAlertSent)
    ensures backend.Available? && |Window(backend.table, now)| >= MinPoints ==>
      var items := Window(backend.table, now);
      var price := items[|items| - 1].price;
      var signal := SignalOf(Prices(items));
      && (signal.Some? ==>
            inv.published[0].subject == SignalAlert(signal.value, price)
            && inv.reply == Reply(200, SignalSent(signal.value)))
      && (signal.None? ==>
            inv.published[0].subject == StockUpdate(price)
            && inv.reply == Reply(200, UpdateSent))
    ensures inv.published[0].subject.SignalAlert? <==> inv.reply.body.SignalSent?
    ensures inv.published[0].subject.SignalAlert? ==> inv.published[0].subject.signal == inv.reply.body.signal
  {
    var outcome := match backend
      case Unavailable(e) => Failure(e)
      case Available(table) => Evaluate(Window(table, now));
    Invocation([Notify(outcome, now)], ReplyTo(outcome))
  }

  /**
   * A cycle that does more than the heartbeat reports the price of the row
   * with the latest timestamp in the window.
   */
  lemma ReportedPriceIsLatest(table: Table, now: int)
    requires WellKeyed(table)
    requires |Window(table, now)| >= MinPoints
    ensures var items := Window(table, now);
      var latest := items[|items| - 1];
      && KeyOf(latest) in table && table[KeyOf(latest)] == latest
      && latest.ticker == Ticker && now - WindowSeconds <= latest.timestamp <= now
      && (forall k :: k in table && k.0 == Ticker && now - WindowSeconds <= k.1 <= now ==> k.1 <= latest.timestamp)
      && Handler(Available(table), now).published[0].subject in
           {SignalAlert(Buy, latest.price), SignalAlert(Sell, latest.price), StockUpdate(latest.price)}
  {
  }

  /** An alert names BUY only on a rising trend and SELL only on a falling one. */
  lemma AlertFollowsTrend(items: seq<Row>)
    ensures var o := Evaluate(items);
      && (o.Alert? ==> |items| >= MinPoints)
      && (o.Alert? && o.signal == Buy ==> items[|items| - 1].price > items[|items| - 3].price)
      && (o.Alert? && o.signal == Sell ==> items[|items| - 1].price < items[|items| - 3].price)
  {
    if Evaluate(items).Alert? {
      var prices := Prices(items);
      assert PriceTrend(prices) == Some(items[|items| - 1].price - items[|items| - 3].price);
    }
  }

  /** The handler sends BUY only on a rising trend in the window, SELL only on a falling one. */
  lemma SignalFollowsTrend(table: Table, now: int)
    requires WellKeyed(table)
    ensures var items := Window(table, now);
      var subject := Handler(Available(table), now).published[0].subject;
      && (subject.SignalAlert? ==> |items| >= MinPoints)
      && (subject.SignalAlert? && subject.signal == Buy ==> items[|items| - 1].price > items[|items| - 3].price)
      && (subject.SignalAlert? && subject.signal == Sell ==> items[|items| - 1].price < items[|items| - 3].price)
  {
    AlertFollowsTrend(Window(table, now));
  }
}
