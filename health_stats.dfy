/** The rolling averages of `src/components/dashboard/HealthStats.tsx`:
    the selected window picks a day range, the rows the remote store returns
    for it are summed (a missing value counts as 0) and each sum is divided
    by the number of rows. Averages are exact; `toFixed(1)` is not
    modelled. */
module HealthStats {
  import opened Common
  import opened HealthRows

  datatype TimeRange = Weekly | BiWeekly | Monthly

  /** `daysToSubtract`. */
  function WindowDays(range: TimeRange): (days: nat)
    ensures days in {7, 14, 30}
    ensures range == Weekly <==> days == 7
    ensures range == BiWeekly <==> days == 14
    ensures range == Monthly <==> days == 30
  {
    match range
    case Weekly => 7
    case BiWeekly => 14
    case Monthly => 30
  }

  /** The number in the footer "Showing average from the last N days". */
  function FooterDays(range: TimeRange): string
  {
    match range
    case Weekly => "7"
    case BiWeekly => "14"
    case Monthly => "30"
  }

  /** The footer shows the window the query uses. */
  lemma FooterMatchesWindow(range: TimeRange)
    ensures FooterDays(range) == DecimalString(WindowDays(range))
  {
  }

  /** The queried days `[start, end]`, both inclusive (`.gte` and `.lte`). */
  datatype DayRange = DayRange(start: int, end: int)

  function QueryRange(today: int, range: TimeRange): (q: DayRange)
    ensures q.end == today && q.end - q.start == WindowDays(range)
  {
    DayRange(today - WindowDays(range), today)
  }

  /** The rows the query asks for: the user's, dated within the range. */
  predicate InQuery(row: Row, userId: string, q: DayRange)
  {
    row.userId == userId && q.start <= row.date <= q.end
  }

  /** Both ends of the window are included. */
  lemma QueryIncludesBothEnds(row: Row, userId: string, today: int, range: TimeRange)
    requires row.userId == userId
    ensures row.date == today ==> InQuery(row, userId, QueryRange(today, range))
    ensures row.date == today - WindowDays(range) ==> InQuery(row, userId, QueryRange(today, range))
    ensures InQuery(row, userId, QueryRange(today, range)) <==> today - WindowDays(range) <= row.date <= today
  {
  }

  /** `x || 0`: null (and 0) count as 0. */
  function OrZero(x: Option<real>): real
  {
    if x.Some? then x.value else 0.0
  }

  /** One row's contribution to the sums. */
  function Contribution(row: Row): Metrics
  {
    Metrics(OrZero(row.sleepHours), OrZero(row.hunger), OrZero(row.soreness), OrZero(row.performanceRating))
  }

  function Add(a: Metrics, b: Metrics): Metrics
  {
    Metrics(a.sleep + b.sleep, a.hunger + b.hunger, a.soreness + b.soreness, a.performance + b.performance)
  }

  const Zero := Metrics(0.0, 0.0, 0.0, 0.0)

  /** `data.reduce((acc, curr) => ..., { 0, 0, 0, 0 })`: a left fold. */
  function Sums(rows: seq<Row>): Metrics
    decreases |rows|
  {
    if rows == [] then Zero else Add(Sums(rows[..|rows| - 1]), Contribution(rows[|rows| - 1]))
  }

  /** Each metric's sum divided by the number of rows, independently. */
  function Averages(rows: seq<Row>): Metrics
    requires |rows| > 0
  {
    var s := Sums(rows);
    var n := |rows| as real;
    Metrics(s.sleep / n, s.hunger / n, s.soreness / n, s.performance / n)
  }

  /** The sums of a split list are the sums of its parts, so the order the
      rows arrive in (newest first) does not matter. */
  lemma {:induction false} SumsConcat(a: seq<Row>, b: seq<Row>)
    ensures Sums(a + b) == Add(Sums(a), Sums(b))
    decreases |b|
  {
    if b == [] {
      assert a + b == a;
    } else {
      var b' := b[..|b| - 1];
      var last := b[|b| - 1];
      var ab := a + b;
      assert ab[..|ab| - 1] == a + b';
      assert ab[|ab| - 1] == last;
      SumsConcat(a, b');
      var sab' := Sums(a + b');
      assert Sums(ab) == Add(sab', Contribution(last));
      assert Sums(b) == Add(Sums(b'), Contribution(last));
    }
  }

  /** A row with every metric missing still counts in the denominator: it
      pulls each average towards 0 instead of being skipped. */
  lemma MissingRowCounts(rows: seq<Row>, row: Row)
    requires row.sleepHours.None? && row.hunger.None? && row.soreness.None? && row.performanceRating.None?
    ensures Sums(rows + [row]) == Sums(rows)
    ensures Averages(rows + [row]).sleep == Sums(rows).sleep / (|rows| + 1) as real
    ensures Averages(rows + [row]).performance == Sums(rows).performance / (|rows| + 1) as real
  {
    assert (rows + [row])[..|rows|] == rows;
  }

  /** Every value present lies on its slider's scale, or below it: at most
      12 hours of sleep and at most 5 for the scores, never negative. */
  predicate ValuesWithin(rows: seq<Row>)
  {
    forall i :: 0 <= i < |rows| ==>
      && 0.0 <= OrZero(rows[i].sleepHours) <= 12.0
      && 0.0 <= OrZero(rows[i].hunger) <= 5.0
      && 0.0 <= OrZero(rows[i].soreness) <= 5.0
      && 0.0 <= OrZero(rows[i].performanceRating) <= 5.0
  }

  lemma {:induction false} SumsWithin(rows: seq<Row>)
    requires ValuesWithin(rows)
    ensures var s := Sums(rows); var n := |rows| as real;
      && 0.0 <= s.sleep <= 12.0 * n
      && 0.0 <= s.hunger <= 5.0 * n
      && 0.0 <= s.soreness <= 5.0 * n
      && 0.0 <= s.performance <= 5.0 * n
    decreases |rows|
  {
    if rows != [] {
      var front := rows[..|rows| - 1];
      assert ValuesWithin(front) by {
        forall i | 0 <= i < |front| ensures front[i] == rows[i] { }
      }
      SumsWithin(front);
      assert Sums(rows) == Add(Sums(front), Contribution(rows[|rows| - 1]));
    }
  }

  /** Averages of slider values stay on the slider's scale: within
      `[0, 12]` hours of sleep and `[0, 5]` for the scores (0 rather than 1
      at the bottom, because missing values count as 0). */
  lemma AveragesWithin(rows: seq<Row>)
    requires |rows| > 0
    requires ValuesWithin(rows)
    ensures var a := Averages(rows);
      && 0.0 <= a.sleep <= 12.0
      && 0.0 <= a.hunger <= 5.0
      && 0.0 <= a.soreness <= 5.0
      && 0.0 <= a.performance <= 5.0
  {
    SumsWithin(rows);
    QuotientsWithin(Sums(rows), |rows| as real);
  }

  lemma QuotientsWithin(s: Metrics, n: real)
    requires n > 0.0
    requires 0.0 <= s.sleep <= 12.0 * n && 0.0 <= s.hunger <= 5.0 * n
    requires 0.0 <= s.soreness <= 5.0 * n && 0.0 <= s.performance <= 5.0 * n
    ensures 0.0 <= s.sleep / n <= 12.0 && 0.0 <= s.hunger / n <= 5.0
    ensures 0.0 <= s.soreness / n <= 5.0 && 0.0 <= s.performance / n <= 5.0
  {
    DivideWithin(s.sleep, 12.0, n);
    DivideWithin(s.hunger, 5.0, n);
    DivideWithin(s.soreness, 5.0, n);
    DivideWithin(s.performance, 5.0, n);
  }

  lemma DivideWithin(s: real, bound: real, n: real)
    requires n > 0.0 && 0.0 <= s <= bound * n
    ensures 0.0 <= s / n <= bound
  {
    var q := s / n;
    assert q * n == s;
    assert (bound - q) * n == bound * n - s;
  }

  /** Two check-ins of 6/3/2/4 and 8/5/4/2 average to 7/4/3/3. */
  lemma TwoRowExample(u: string, d1: int, d2: int)
    ensures var rows := [Row(1, u, d1, Some(6.0), Some(3.0), Some(2.0), Some(4.0)),
                         Row(2, u, d2, Some(8.0), Some(5.0), Some(4.0), Some(2.0))];
      Averages(rows) == Metrics(7.0, 4.0, 3.0, 3.0)
  {
    var rows := [Row(1, u, d1, Some(6.0), Some(3.0), Some(2.0), Some(4.0)),
                 Row(2, u, d2, Some(8.0), Some(5.0), Some(4.0), Some(2.0))];
    assert rows[..1][..0] == [];
    assert Sums(rows[..1]) == Metrics(6.0, 3.0, 2.0, 4.0);
    assert Sums(rows) == Metrics(14.0, 8.0, 6.0, 6.0);
  }

  /** What the stats query returns: rows, or an error. */
  datatype FetchResult = Fetched(rows: seq<Row>) | FetchFailed

  /** The component's state: the selected window, the shown averages and
      the loading flag. */
  class HealthStatsPanel {
    var timeRange: TimeRange
    var averageStats: Metrics
    var isLoadingStats: bool

    /** Weekly, all averages 0, loading. */
    constructor ()
      ensures timeRange == Weekly && averageStats == Zero && isLoadingStats
    {
      timeRange := Weekly;
      averageStats := Zero;
      isLoadingStats := true;
    }

    /** Picking a window from the menu. */
    method SetTimeRange(range: TimeRange)
      modifies this
      ensures timeRange == range
      ensures averageStats == old(averageStats) && isLoadingStats == old(isLoadingStats)
    {
      timeRange := range;
    }

    /** `loadAverageStats`: the signed-in user (None when there is none or
        the lookup fails) and today's day number come in; `server` answers
        the query. The query issued is returned. With no user, an error or
        no rows the averages stay as they were; otherwise they become the
        rows' averages. Loading always ends. */
    method LoadAverageStats(user: Option<string>, today: int, server: (string, DayRange) -> FetchResult)
      returns (query: Option<(string, DayRange)>)
      modifies this
      ensures !isLoadingStats && timeRange == old(timeRange)
      ensures user.None? ==> query.None? && averageStats == old(averageStats)
      ensures user.Some? ==> query == Some((user.value, QueryRange(today, timeRange)))
      ensures user.Some? ==>
        var response := server(user.value, QueryRange(today, timeRange));
        if response.Fetched? && |response.rows| > 0
        then averageStats == Averages(response.rows)
        else averageStats == old(averageStats)
    {
      isLoadingStats := true;
      if user.None? {
        isLoadingStats := false;
        return None;
      }
      var range := QueryRange(today, timeRange);
      query := Some((user.value, range));
      var response := server(user.value, range);
      if response.Fetched? && |response.rows| > 0 {
        averageStats := Averages(response.rows);
      }
      isLoadingStats := false;
    }
  }
}
