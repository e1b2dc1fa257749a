/** The dashboard of one mode (`src/pages/Index.tsx`): the month's spending, the
    projected month-end balance, the per-day and per-category outflow series,
    the six-month trend with its least-squares forecast, and the classifiers
    that colour them. */
module Dashboard {
  import opened Prelude
  import opened Sorting
  import opened Ledger
  import opened Store
  import InsightsEngine

  // ---------------------------------------------------------------- month-end projection

  /** `dayOfMonth > 0 ? gastos / dayOfMonth : 0` */
  function DailyMean(spend: real, dayOfMonth: int): real
  {
    if dayOfMonth > 0 then spend / dayOfMonth as real else 0.0
  }

  /** The balance left at the end of the month when spending goes on at the daily mean. */
  function MonthEndForecast(balance: real, spend: real, dayOfMonth: int, daysInMonth: int): (r: real)
    ensures dayOfMonth <= 0 ==> r == balance
    ensures dayOfMonth == daysInMonth ==> r == balance
  {
    balance - DailyMean(spend, dayOfMonth) * (daysInMonth - dayOfMonth) as real
  }

  /** The dashboard and the insight engine project the month end the same way. */
  lemma ForecastAgreesWithEngine(balance: real, spend: real, dayOfMonth: int, daysInMonth: int)
    requires dayOfMonth >= 1
    ensures MonthEndForecast(balance, spend, dayOfMonth, daysInMonth)
         == InsightsEngine.Projection(balance, spend, dayOfMonth, daysInMonth)
  {
  }

  /** Spending never raises the projection above the balance, and it stays there
      exactly when nothing was spent. */
  lemma ForecastAtMostBalance(balance: real, spend: real, dayOfMonth: int, daysInMonth: int)
    requires spend >= 0.0
    requires 1 <= dayOfMonth < daysInMonth
    ensures MonthEndForecast(balance, spend, dayOfMonth, daysInMonth) <= balance
    ensures MonthEndForecast(balance, spend, dayOfMonth, daysInMonth) == balance <==> spend == 0.0
  {
    var mean := spend / dayOfMonth as real;
    assert mean * dayOfMonth as real == spend;
    var left := (daysInMonth - dayOfMonth) as real;
    if spend > 0.0 {
      assert mean > 0.0;
      assert mean * left > 0.0;
    }
  }

  // ---------------------------------------------------------------- chart series

  /** `Object.entries(obj).map(([k, v]) => ({ k, valor: Number(v.toFixed(2)) }))` */
  function Rounded<K>(g: seq<(K, real)>): (r: seq<(K, real)>)
    ensures |r| == |g|
    ensures forall i :: 0 <= i < |g| ==> r[i].0 == g[i].0 && r[i].1 == ToCents(g[i].1)
  {
    seq(|g|, i requires 0 <= i < |g| => (g[i].0, ToCents(g[i].1)))
  }

  function DayKey(p: (int, real)): real { p.0 as real }

  /** The per-day series, sorted by day. */
  function DailySeries(txs: seq<Transaction>): seq<(int, real)>
  {
    SortBy(Rounded(Group(DayPairs(txs))), DayKey)
  }

  /** The per-category series, in the order the categories first occur. */
  function CategorySeries(txs: seq<Transaction>): seq<(string, real)>
  {
    Rounded(Group(CategoryPairs(txs)))
  }

  /** A rounded grouping holds exactly one point per key that occurs, carrying that
      key's total rounded to cents. */
  lemma {:induction false} GroupedPoints<K>(xs: seq<(K, real)>)
    ensures forall p :: p in Rounded(Group(xs)) <==> p.0 in Keys(xs) && p.1 == ToCents(KeyTotal(xs, p.0))
    ensures Keys(Rounded(Group(xs))) == FirstOccurrences(Keys(xs))
  {
    var g := Group(xs);
    var r := Rounded(g);
    GroupKeys(xs);
    forall p: (K, real) | p in r ensures p.0 in Keys(xs) && p.1 == ToCents(KeyTotal(xs, p.0)) {
      var i :| 0 <= i < |r| && r[i] == p;
      EntryIsKeyTotal(xs, i);
    }
    forall p: (K, real) | p.0 in Keys(xs) && p.1 == ToCents(KeyTotal(xs, p.0)) ensures p in r {
      var i := KeyTotalIsEntry(xs, p.0);
      assert r[i] == p;
    }
  }

  /** The daily series is sorted by day and has one point per day with outflow, holding
      that day's outflow rounded to cents. */
  lemma DailySeriesShape(txs: seq<Transaction>)
    ensures SortedBy(DailySeries(txs), DayKey)
    ensures |DailySeries(txs)| == |FirstOccurrences(Keys(DayPairs(txs)))|
    ensures forall p :: p in DailySeries(txs) <==>
      p.0 in Keys(DayPairs(txs)) && p.1 == ToCents(KeyTotal(DayPairs(txs), p.0))
  {
    var r := Rounded(Group(DayPairs(txs)));
    SortBySorted(r, DayKey);
    DailySeriesLength(txs, r);
    DailySeriesPoints(txs, r);
  }

  lemma DailySeriesLength(txs: seq<Transaction>, r: seq<(int, real)>)
    requires r == Rounded(Group(DayPairs(txs)))
    ensures |DailySeries(txs)| == |FirstOccurrences(Keys(DayPairs(txs)))|
  {
    GroupedPoints(DayPairs(txs));
    assert |DailySeries(txs)| == |r| == |Keys(r)|;
  }

  lemma DailySeriesPoints(txs: seq<Transaction>, r: seq<(int, real)>)
    requires r == Rounded(Group(DayPairs(txs)))
    ensures forall p :: p in DailySeries(txs) <==>
      p.0 in Keys(DayPairs(txs)) && p.1 == ToCents(KeyTotal(DayPairs(txs), p.0))
  {
    var d := DailySeries(txs);
    assert multiset(d) == multiset(r);
    GroupedPoints(DayPairs(txs));
    forall p: (int, real) ensures p in d <==> p in r {
      assert p in d <==> p in multiset(d);
    }
  }

  /** The category series has one point per category with outflow, in first-occurrence
      order, holding that category's outflow rounded to cents. */
  lemma CategorySeriesShape(txs: seq<Transaction>)
    ensures Keys(CategorySeries(txs)) == FirstOccurrences(Keys(CategoryPairs(txs)))
    ensures forall p :: p in CategorySeries(txs) <==>
      p.0 in Keys(CategoryPairs(txs)) && p.1 == ToCents(KeyTotal(CategoryPairs(txs), p.0))
  {
    GroupedPoints(CategoryPairs(txs));
  }

  // ---------------------------------------------------------------- six-month trend

  /** `meses.reduce((sum, m, i) => sum + i * m.valor, 0)` */
  function WeightedSum(ys: seq<real>): real
  {
    if ys == [] then 0.0 else WeightedSum(ys[..|ys| - 1]) + (|ys| - 1) as real * ys[|ys| - 1]
  }

  /** `meses.reduce((sum, _, i) => sum + i, 0)` */
  function IndexSum(n: nat): real
  {
    if n == 0 then 0.0 else IndexSum(n - 1) + (n - 1) as real
  }

  /** `meses.reduce((sum, _, i) => sum + i * i, 0)` */
  function SquareSum(n: nat): real
  {
    if n == 0 then 0.0 else SquareSum(n - 1) + ((n - 1) * (n - 1)) as real
  }

  /** The least-squares denominator for six points is 105, never zero. */
  function Denominator(): (r: real)
    ensures r == 105.0
  {
    6.0 * SquareSum(6) - IndexSum(6) * IndexSum(6)
  }

  /** The fitted line's value at x = 6, before clamping. */
  function RawForecast(ys: seq<real>): real
    requires |ys| == 6
  {
    var n := 6.0;
    var slope := (n * WeightedSum(ys) - IndexSum(6) * Sum(ys)) / Denominator();
    var intercept := (Sum(ys) - slope * IndexSum(6)) / n;
    slope * n + intercept
  }

  /** `Number(Math.max(0, previsaoProxMes).toFixed(2))` */
  function Forecast(ys: seq<real>): (r: real)
    requires |ys| == 6
    ensures r >= 0.0
    ensures -0.005 <= r - (if RawForecast(ys) > 0.0 then RawForecast(ys) else 0.0) <= 0.005
  {
    ToCents(if RawForecast(ys) > 0.0 then RawForecast(ys) else 0.0)
  }

  lemma PrefixStep(ys: seq<real>, k: int)
    requires 0 <= k < |ys|
    ensures Sum(ys[..k + 1]) == Sum(ys[..k]) + ys[k]
    ensures WeightedSum(ys[..k + 1]) == WeightedSum(ys[..k]) + k as real * ys[k]
  {
    assert ys[..k + 1][..k] == ys[..k];
  }

  lemma SixPointSums(ys: seq<real>)
    requires |ys| == 6
    ensures Sum(ys) == ys[0] + ys[1] + ys[2] + ys[3] + ys[4] + ys[5]
    ensures WeightedSum(ys) == ys[1] + 2.0 * ys[2] + 3.0 * ys[3] + 4.0 * ys[4] + 5.0 * ys[5]
  {
    PrefixStep(ys, 0);
    PrefixStep(ys, 1);
    PrefixStep(ys, 2);
    PrefixStep(ys, 3);
    PrefixStep(ys, 4);
    PrefixStep(ys, 5);
    assert ys[..6] == ys;
  }

  /** Least squares reproduces a straight line: six points on y = a + b·x forecast
      a + 6b, and six equal values forecast that value. */
  lemma ForecastOfLine(ys: seq<real>, a: real, b: real)
    requires |ys| == 6
    requires forall i :: 0 <= i < 6 ==> ys[i] == a + i as real * b
    ensures RawForecast(ys) == a + 6.0 * b
    ensures b == 0.0 && a >= 0.0 ==> Forecast(ys) == ToCents(a)
  {
    SixPointSums(ys);
    assert Sum(ys) == 6.0 * a + 15.0 * b;
    assert WeightedSum(ys) == 15.0 * a + 55.0 * b;
    assert IndexSum(6) == 15.0;
  }

  datatype TrendPoint = Month(index: int, value: real) | Prev(forecast: real)

  function MonthValues(months: seq<seq<Transaction>>): (r: seq<real>)
    ensures |r| == |months|
  {
    seq(|months|, i requires 0 <= i < |months| => ToCents(Outflow(months[i])))
  }

  /** The trend chart: the six monthly outflows, oldest first, then the forecast. */
  function Trend(months: seq<seq<Transaction>>): seq<TrendPoint>
    requires |months| == 6
  {
    seq(6, i requires 0 <= i < 6 => Month(i, ToCents(Outflow(months[i]))))
      + [Prev(Forecast(MonthValues(months)))]
  }

  /** `calcularTendenciaMensal`: one query per month, pushed oldest first (`months[i]` is
      the month 5 - i months back), then the regression. */
  method MonthlyTrend(months: seq<seq<Transaction>>) returns (points: seq<TrendPoint>)
    requires |months| == 6
    ensures points == Trend(months)
    ensures |points| == 7 && points[6].Prev? && points[6].forecast >= 0.0
  {
    var values: seq<real> := [];
    points := [];
    var i := 0;
    while i < 6
      invariant 0 <= i <= 6
      invariant values == MonthValues(months)[..i]
      invariant points == seq(i, j requires 0 <= j < i => Month(j, ToCents(Outflow(months[j]))))
    {
      var spend := ToCents(Outflow(months[i]));
      values := values + [spend];
      points := points + [Month(i, spend)];
      i := i + 1;
    }
    assert values == MonthValues(months);
    points := points + [Prev(Forecast(values))];
  }

  // ---------------------------------------------------------------- classifiers

  datatype ForecastBand = Positive | Attention | HighRisk

  /** `getPrevisaoStatus` */
  function Band(forecast: real, balance: real): (r: ForecastBand)
    ensures r == Positive <==> forecast > balance * 0.5
    ensures r == Attention <==> balance * 0.5 >= forecast > 0.0
    ensures r == HighRisk <==> forecast <= 0.0 && forecast <= balance * 0.5
  {
    if forecast > balance * 0.5 then Positive
    else if forecast > 0.0 then Attention
    else HighRisk
  }

  /** With non-negative spending, a "positive projection" always means a positive
      forecast: the band never praises a balance that ends the month negative. */
  lemma PositiveBandMeansPositiveForecast(balance: real, spend: real, dayOfMonth: int, daysInMonth: int)
    requires spend >= 0.0
    requires 1 <= dayOfMonth <= daysInMonth
    ensures var f := MonthEndForecast(balance, spend, dayOfMonth, daysInMonth);
      Band(f, balance) == Positive ==> f > 0.0
  {
    if dayOfMonth < daysInMonth {
      ForecastAtMostBalance(balance, spend, dayOfMonth, daysInMonth);
    }
  }

  /** `percentualGasto` */
  function PercentSpent(spend: real, balance: real): (r: int)
    ensures balance <= 0.0 ==> r == 0
    ensures balance > 0.0 ==> spend / balance * 100.0 - 0.5 < r as real <= spend / balance * 100.0 + 0.5
  {
    if balance > 0.0 then Round(spend / balance * 100.0) else 0
  }

  /** Spending within a positive balance reads as a percentage between 0 and 100. */
  lemma PercentSpentInRange(spend: real, balance: real)
    requires balance > 0.0
    requires 0.0 <= spend <= balance
    ensures 0 <= PercentSpent(spend, balance) <= 100
  {
    DivCompare(spend, balance, 1.0);
    assert spend / balance >= 0.0;
  }

  /** The width of the spending bar, `Math.min(percentualGasto, 100)`. */
  function BarWidth(percent: int): (r: int)
    ensures r <= 100 && r <= percent && (r == percent || r == 100)
  {
    Min(percent, 100)
  }

  datatype Diversity = Alta | Media | Baixa

  /** The diversification label for the number of categories. */
  function DiversityBand(categories: nat): (r: Diversity)
    ensures r == Alta <==> categories >= 5
    ensures r == Baixa <==> categories < 3
  {
    if categories >= 5 then Alta else if categories >= 3 then Media else Baixa
  }

  // ---------------------------------------------------------------- the page state

  /** The React state of the dashboard. */
  class DashboardView {
    var balance: real
    var spend: real
    var forecast: real
    var daily: seq<(int, real)>
    var categories: seq<(string, real)>
    var trend: seq<TrendPoint>

    constructor ()
      ensures balance == 0.0 && spend == 0.0 && forecast == 0.0
      ensures daily == [] && categories == [] && trend == []
    {
      balance := 0.0;
      spend := 0.0;
      forecast := 0.0;
      daily := [];
      categories := [];
      trend := [];
    }

    /** `fetchDashboardData`: `window` is the mode's transactions since the first of the
        month, `months` the six monthly windows of the trend. */
    method Refresh(accounts: seq<Account>, user: string, window: seq<Transaction>,
                   months: seq<seq<Transaction>>, dayOfMonth: int, daysInMonth: int)
      requires |months| == 6
      modifies this
      ensures balance == PrincipalBalance(accounts, user)
      ensures window != [] ==>
        && spend == Outflow(window)
        && forecast == MonthEndForecast(balance, spend, dayOfMonth, daysInMonth)
        && daily == DailySeries(window)
        && categories == CategorySeries(window)
        && trend == Trend(months)
      ensures window == [] ==>
        spend == 0.0 && forecast == balance && daily == [] && categories == [] && trend == []
    {
      balance := PrincipalBalance(accounts, user);
      if window != [] {
        spend := Outflow(window);
        forecast := MonthEndForecast(balance, spend, dayOfMonth, daysInMonth);
        var byDay := SpendByDay(window);
        daily := SortBy(Rounded(byDay), DayKey);
        var byCategory := SpendByCategory(window);
        categories := Rounded(byCategory);
        trend := MonthlyTrend(months);
      } else {
        spend := 0.0;
        forecast := balance;
        daily := [];
        categories := [];
        trend := [];
      }
    }
  }
}
