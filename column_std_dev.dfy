/**
 * The standard-deviation metric (`ColumnStdDev`): a single-table,
 * completeness metric over numeric columns that never lists invalid rows and
 * whose actual value is the dialect's standard-deviation query, narrowed by
 * the metric's filters.
 */
module ColumnStdDev {
  import opened Common
  import opened Api

  const NAME := "column_std_dev"

  /** The prefix of the actual-value result table; the metric's unique key follows it. */
  const RESULT_TABLE_PREFIX := "invalidate_count_"

  /** `getInvalidateItems`: the metric has no invalid-rows statement. */
  function GetInvalidateItems(inputParameter: ParamMap): (r: Option<ExecuteSql>)
    ensures r.None?
  {
    None
  }

  /** The actual-value query: the dialect's query, then ` where ` and the filters joined by ` and `, if any. */
  function ActualValueSql(script: MetricScript, filters: seq<string>, uniqueKey: Option<string>): string {
    var base := script.stdDevActualValue(uniqueKey);
    if filters == [] then base else base + " where " + Join(" and ", filters)
  }

  /** `getActualValue` as a value. */
  function GetActualValue(script: MetricScript, filters: seq<string>, inputParameter: ParamMap): Option<ExecuteSql> {
    var uniqueKey := Get(inputParameter, METRIC_UNIQUE_KEY);
    Some(ExecuteSql(Some(ActualValueSql(script, filters, uniqueKey)), Some(RESULT_TABLE_PREFIX + ShowStr(uniqueKey)), false))
  }

  /**
   * `getActualValue`: fills a fresh statement, appending the filter clause
   * to the dialect's query only when there are filters.
   */
  method BuildActualValue(script: MetricScript, filters: seq<string>, inputParameter: ParamMap) returns (r: ExecuteSql)
    ensures GetActualValue(script, filters, inputParameter) == Some(r)
    ensures r.resultTable == Some(RESULT_TABLE_PREFIX + ShowStr(Get(inputParameter, METRIC_UNIQUE_KEY)))
    ensures !r.errorOutput
  {
    var uniqueKey := Get(inputParameter, METRIC_UNIQUE_KEY);
    var resultTable := RESULT_TABLE_PREFIX + ShowStr(uniqueKey);
    var actualValueSql := script.stdDevActualValue(uniqueKey);
    if filters != [] {
      actualValueSql := actualValueSql + " where " + Join(" and ", filters);
    }
    r := ExecuteSql(Some(actualValueSql), Some(resultTable), false);
  }

  /**
   * The query starts with the dialect's query; without filters it is exactly
   * that query, with filters it ends with them joined by ` and `.
   */
  lemma ActualValueSqlShape(script: MetricScript, filters: seq<string>, uniqueKey: Option<string>)
    ensures var sql := ActualValueSql(script, filters, uniqueKey);
      && StartsWith(sql, script.stdDevActualValue(uniqueKey))
      && (filters == [] <==> sql == script.stdDevActualValue(uniqueKey))
      && (filters != [] ==> EndsWith(sql, " where " + Join(" and ", filters)))
  {
    var base := script.stdDevActualValue(uniqueKey);
    if filters != [] {
      var tail := " where " + Join(" and ", filters);
      assert |tail| > 0;
      assert base + " where " + Join(" and ", filters) == base + tail;
      EndsWithConcat(base, tail);
    }
  }

  /** Metrics with different unique keys write different result tables. */
  lemma ResultTablesDistinct(script: MetricScript, filters: seq<string>, m: ParamMap, n: ParamMap)
    requires Get(m, METRIC_UNIQUE_KEY).Some? && Get(n, METRIC_UNIQUE_KEY).Some?
    requires Get(m, METRIC_UNIQUE_KEY) != Get(n, METRIC_UNIQUE_KEY)
    ensures GetActualValue(script, filters, m).value.resultTable != GetActualValue(script, filters, n).value.resultTable
  {
    var a := Get(m, METRIC_UNIQUE_KEY).value;
    var b := Get(n, METRIC_UNIQUE_KEY).value;
    assert (RESULT_TABLE_PREFIX + a)[|RESULT_TABLE_PREFIX|..] == a;
    assert (RESULT_TABLE_PREFIX + b)[|RESULT_TABLE_PREFIX|..] == b;
  }

  /**
   * The plugin: its name, type and dimension, numeric columns only, no
   * invalid rows; the filters come from `prepare` and the row-output flag from
   * the single-table column base class, neither of which is part of this model.
   */
  function Plugin(script: MetricScript, filters: seq<string>, invalidateItemsCanOutput: bool): (m: SqlMetric)
    ensures m.name == NAME && m.metricType == SingleTable && m.dimension == Completeness
    ensures m.suitableType == [NumericType]
    ensures forall c :: m.invalidateItems(c).None?
    ensures forall c :: m.actualValue(c) == GetActualValue(script, filters, c)
  {
    SqlMetric(NAME, SingleTable, Completeness, [NumericType], invalidateItemsCanOutput,
              GetInvalidateItems, c => GetActualValue(script, filters, c))
  }
}
