/**
 * The Flink dialect's SQL templates (`FlinkMetricScript`): the histogram of
 * a column's values, the two regular-expression predicates, and the five
 * expected-value queries that average earlier actual values over a time
 * window.  Each template is a fixed list of fragments around its arguments;
 * `${...}` placeholders are filled later from the metric's context.
 */
module FlinkMetricScript {
  import opened Common
  import opened Api

  /** The table the expected-value queries read earlier actual values from. */
  const ACTUAL_VALUES_HISTORY := "md_dv_actual_values"

  /** Restricts the history to the metric's own earlier runs. */
  const UNIQUE_CODE_FILTER := "unique_code = ${unique_code}"

  /** `${key}`: the placeholder for a context key. */
  function Placeholder(key: string): string {
    "${" + key + "}"
  }

  function ActualAlias(uniqueKey: string): string {
    "actual_value_" + uniqueKey
  }

  /** `data_time >= 'bound'`: an inclusive lower bound. */
  function AtLeast(bound: string): string {
    "data_time >= '" + bound + "'"
  }

  /** `data_time < 'bound'`: an exclusive upper bound. */
  function Before(bound: string): string {
    "data_time < '" + bound + "'"
  }

  /** `data_time <= 'bound'`: an inclusive upper bound. */
  function AtMost(bound: string): string {
    "data_time <= '" + bound + "'"
  }

  /** The daily query's aggregate: the mean of the earlier actual values, rounded to two places. */
  const ROUNDED_AVG_UPPER := "SELECT ROUND(AVG(actual_value), 2) AS "

  /** The same aggregate, as the other four queries spell it. */
  const ROUNDED_AVG := "select round(avg(actual_value),2) as "

  /**
   * Averages the history of the metric with this unique key: the query opens
   * with the rounded-average aggregate `select` aliased to the metric's
   * expected-value key, and reads the metric's own rows of the history table.
   */
  ghost predicate AveragesHistory(sql: string, select: string, uniqueKey: string) {
    && StartsWith(sql, select + ExpectedValueKey(uniqueKey))
    && Contains(sql, ACTUAL_VALUES_HISTORY) && Contains(sql, UNIQUE_CODE_FILTER)
  }

  /** A half-open window `[start, end)` over `data_time`. */
  ghost predicate HalfOpenWindow(sql: string, start: string, end: string) {
    Contains(sql, AtLeast(start)) && Contains(sql, Before(end))
  }

  /** A closed window `[start, end]` over `data_time`. */
  ghost predicate ClosedWindow(sql: string, start: string, end: string) {
    Contains(sql, AtLeast(start)) && Contains(sql, AtMost(end))
  }

  /** `histogramActualValue`: the 50 most frequent values of `${column}` with their counts. */
  function HistogramActualValue(uniqueKey: string, where: string): (r: string)
    ensures Contains(r, ActualAlias(uniqueKey))
    ensures Contains(r, "from ${table} " + where + " group by ${column}")
    ensures EndsWith(r, " order by count desc limit 50) T ")
  {
    var parts := ["select concat(k, '\\001', cast(count as string)) as ", ActualAlias(uniqueKey),
                  " from (select if(${column} is null, 'NULL', cast(${column} as string)) as k, count(1) as count ",
                  "from ${table} " + where + " group by ${column}", " order by count desc limit 50) T "];
    ContainsPart(parts, 1);
    ContainsPart(parts, 3);
    EndsWithLast(parts);
    Concat(parts)
  }

  /** The Flink call that tests `${column}` against `${regex}`. */
  const REGEXP_CALL := "regexp(${column}, ${regex})"

  /** `columnMatchRegex`. */
  function ColumnMatchRegex(): string {
    " " + REGEXP_CALL + " "
  }

  /** `columnNotMatchRegex`. */
  function ColumnNotMatchRegex(): string {
    " !" + REGEXP_CALL + " "
  }

  /** The negated predicate is the plain one with `!` put in front of `regexp`. */
  lemma NotMatchNegatesMatch()
    ensures ColumnNotMatchRegex() == ColumnMatchRegex()[..1] + "!" + ColumnMatchRegex()[1..]
    ensures StartsWith(ColumnMatchRegex()[1..], "regexp")
  {
    var m := ColumnMatchRegex();
    assert m[..1] == " ";
    assert m[1..] == REGEXP_CALL + " ";
  }

  /** The fragments of an expected-value query, in the order the query text lists them. */
  function AverageQuery(select: string, from: string, where: string, and: string, uniqueKey: string, lower: string, upper: string): seq<string> {
    [select, ExpectedValueKey(uniqueKey), from, ACTUAL_VALUES_HISTORY, where, lower, and, upper, and, UNIQUE_CODE_FILTER]
  }

  /** The facts every expected-value query satisfies. */
  lemma AverageQueryShape(select: string, from: string, where: string, and: string, uniqueKey: string, lower: string, upper: string)
    ensures var q := Concat(AverageQuery(select, from, where, and, uniqueKey, lower, upper));
      AveragesHistory(q, select, uniqueKey) && Contains(q, lower) && Contains(q, upper)
  {
    var parts := AverageQuery(select, from, where, and, uniqueKey, lower, upper);
    assert parts[1..][0] == ExpectedValueKey(uniqueKey);
    assert Concat(parts) == select + (ExpectedValueKey(uniqueKey) + Concat(parts[1..][1..]));
    ContainsPart(parts, 1);
    ContainsPart(parts, 3);
    ContainsPart(parts, 5);
    ContainsPart(parts, 7);
    ContainsPart(parts, 9);
  }

  /** `dailyAvg`: today's window, `[${day_start_time}, ${day_end_time})`. */
  function DailyAvg(uniqueKey: string): (r: string)
    ensures AveragesHistory(r, ROUNDED_AVG_UPPER, uniqueKey)
    ensures HalfOpenWindow(r, Placeholder(DAY_START_TIME), Placeholder(DAY_END_TIME))
  {
    AverageQueryShape(ROUNDED_AVG_UPPER, " FROM ", " WHERE ", " AND ", uniqueKey,
                      AtLeast(Placeholder(DAY_START_TIME)), Before(Placeholder(DAY_END_TIME)));
    Concat(AverageQuery(ROUNDED_AVG_UPPER, " FROM ", " WHERE ", " AND ", uniqueKey,
                        AtLeast(Placeholder(DAY_START_TIME)), Before(Placeholder(DAY_END_TIME))))
  }

  /** `last7DayAvg`: `[${day_start_time}, ${day_after_7_end_time})`. */
  function Last7DayAvg(uniqueKey: string): (r: string)
    ensures AveragesHistory(r, ROUNDED_AVG, uniqueKey)
    ensures HalfOpenWindow(r, Placeholder(DAY_START_TIME), Placeholder(DAY_AFTER_7_END_TIME))
  {
    AverageQueryShape(ROUNDED_AVG, " from ", " where ", " and ", uniqueKey,
                      AtLeast(Placeholder(DAY_START_TIME)), Before(Placeholder(DAY_AFTER_7_END_TIME)));
    Concat(AverageQuery(ROUNDED_AVG, " from ", " where ", " and ", uniqueKey,
                        AtLeast(Placeholder(DAY_START_TIME)), Before(Placeholder(DAY_AFTER_7_END_TIME))))
  }

  /** `last30DayAvg`: `[${day_start_time}, ${day_after_30_end_time})`. */
  function Last30DayAvg(uniqueKey: string): (r: string)
    ensures AveragesHistory(r, ROUNDED_AVG, uniqueKey)
    ensures HalfOpenWindow(r, Placeholder(DAY_START_TIME), Placeholder(DAY_AFTER_30_END_TIME))
  {
    AverageQueryShape(ROUNDED_AVG, " from ", " where ", " and ", uniqueKey,
                      AtLeast(Placeholder(DAY_START_TIME)), Before(Placeholder(DAY_AFTER_30_END_TIME)));
    Concat(AverageQuery(ROUNDED_AVG, " from ", " where ", " and ", uniqueKey,
                        AtLeast(Placeholder(DAY_START_TIME)), Before(Placeholder(DAY_AFTER_30_END_TIME))))
  }

  /** `monthlyAvg`: `[${month_start_day} 00:00:00, ${month_end_day} 23:59:59]`. */
  function MonthlyAvg(uniqueKey: string): (r: string)
    ensures AveragesHistory(r, ROUNDED_AVG, uniqueKey)
    ensures ClosedWindow(r, Placeholder(MONTH_START_DAY) + " 00:00:00", Placeholder(MONTH_END_DAY) + " 23:59:59")
  {
    AverageQueryShape(ROUNDED_AVG, " from ", " where ", " and ", uniqueKey,
                      AtLeast(Placeholder(MONTH_START_DAY) + " 00:00:00"), AtMost(Placeholder(MONTH_END_DAY) + " 23:59:59"));
    Concat(AverageQuery(ROUNDED_AVG, " from ", " where ", " and ", uniqueKey,
                        AtLeast(Placeholder(MONTH_START_DAY) + " 00:00:00"), AtMost(Placeholder(MONTH_END_DAY) + " 23:59:59")))
  }

  /** `weeklyAvg`: `[${week_start_day} 00:00:00, ${week_end_day} 23:59:59]`. */
  function WeeklyAvg(uniqueKey: string): (r: string)
    ensures AveragesHistory(r, ROUNDED_AVG, uniqueKey)
    ensures ClosedWindow(r, Placeholder(WEEK_START_DAY) + " 00:00:00", Placeholder(WEEK_END_DAY) + " 23:59:59")
  {
    AverageQueryShape(ROUNDED_AVG, " from ", " where ", " and ", uniqueKey,
                      AtLeast(Placeholder(WEEK_START_DAY) + " 00:00:00"), AtMost(Placeholder(WEEK_END_DAY) + " 23:59:59"));
    Concat(AverageQuery(ROUNDED_AVG, " from ", " where ", " and ", uniqueKey,
                        AtLeast(Placeholder(WEEK_START_DAY) + " 00:00:00"), AtMost(Placeholder(WEEK_END_DAY) + " 23:59:59")))
  }
}
