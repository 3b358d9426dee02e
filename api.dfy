/**
 * The interfaces the compiler consumes: the parameter context, the
 * `ExecuteSql` record, metric / expected-value plugins, connector factories
 * and the configuration key names they share.  Plugins are records of
 * functions, so a concrete plugin (such as the standard-deviation metric) is
 * one value of the record, and the plugin registry is a function from a key
 * to an optional plugin.
 */
module Api {
  import opened Common

  /** A parameter context: Java's `Map<String, String>`, values may be null. */
  type ParamMap = map<string, Option<string>>

  /** `Map.get` on a parameter context: null when the key is absent. */
  function Get(m: ParamMap, k: string): Option<string> {
    if k in m then m[k] else None
  }

  // Placeholder and configuration key names.
  const WEEK_START_DAY := "week_start_day"
  const WEEK_END_DAY := "week_end_day"
  const MONTH_START_DAY := "month_start_day"
  const MONTH_END_DAY := "month_end_day"
  const DAY_START_TIME := "day_start_time"
  const DAY_END_TIME := "day_end_time"
  const DAY_AFTER_7_END_TIME := "day_after_7_end_time"
  const DAY_AFTER_30_END_TIME := "day_after_30_end_time"
  const DATABASE := "database"
  const TABLE := "table"
  const COLUMN := "column"
  const ERROR_DATA_FILE_NAME := "error_data_file_name"
  const ERROR_DATA_DIR := "error_data_dir"
  const COLUMN_SEPARATOR := "column_separator"
  const LINE_SEPARATOR := "line_separator"
  const VALIDATE_RESULT_DATA_DIR := "validate_result_data_dir"
  const DATA_DIR := "data_dir"
  const METRIC_UNIQUE_KEY := "metric_unique_key"
  const EXPECTED_VALUE := "expected_value"
  const RESULT_FORMULA := "result_formula"
  const OPERATOR := "operator"
  const THRESHOLD := "threshold"
  const EXPECTED_TYPE := "expected_type"
  const INVALIDATE_ITEM_CAN_OUTPUT := "invalidate_item_can_output"
  const ENGINE_TYPE := "engine_type"
  const INVALIDATE_ITEMS_TABLE := "invalidate_items_table"
  const ACTUAL_TABLE := "actual_table"
  const EXPECTED_TABLE := "expected_table"
  const UNIQUE_CODE := "unique_code"
  const OUTPUT_TABLE := "output_table"
  const SQL := "sql"
  const DRIVER := "driver"
  const JOB_EXECUTION_ID := "job_execution_id"
  const ACTUAL_AGGREGATE_SQL := "actual_aggregate_sql"
  const HOST := "host"
  const PORT := "port"
  const CATALOG := "catalog"
  const PROPERTIES := "properties"
  const FILE := "file"
  const LOCAL := "local"

  /** `expected_value_<uniqueKey>`: where a literal expected value is published. */
  function ExpectedValueKey(uniqueKey: string): string {
    EXPECTED_VALUE + "_" + uniqueKey
  }

  /** One rendered SQL statement and the table it produces. */
  datatype ExecuteSql = ExecuteSql(sql: Option<string>, resultTable: Option<string>, errorOutput: bool)

  /** The normalised column types; only the numeric one occurs in the modelled sources. */
  datatype DataVinesDataType = NumericType | OtherDataVinesType(name: string)

  datatype MetricType = SingleTable | MultiTableAccuracy | OtherMetricType(name: string)

  datatype MetricDimension = Completeness | OtherDimension(name: string)

  /** The description of the multi-table accuracy metric type. */
  const MULTI_TABLE_ACCURACY := "multi_table_accuracy"

  /** A metric plugin (`SqlMetric`). */
  datatype SqlMetric = SqlMetric(
    name: string,
    metricType: MetricType,
    dimension: MetricDimension,
    suitableType: seq<DataVinesDataType>,
    invalidateItemsCanOutput: bool,
    invalidateItems: ParamMap -> Option<ExecuteSql>,
    actualValue: ParamMap -> Option<ExecuteSql>)

  /** An expected-value plugin (`ExpectedValue`). */
  datatype ExpectedValue = ExpectedValue(
    needDefaultDatasource: bool,
    executeSql: ParamMap -> Option<string>,
    outputTable: ParamMap -> Option<string>,
    key: ParamMap -> Option<string>)

  /** The transform stage types. */
  datatype TransformType =
    | InvalidateItems
    | ActualValue
    | ExpectedValueFromMetadataSource
    | ExpectedValueFromSource
    | ExpectedValueFromSrcSource

  /**
   * A connector factory with its dialect: the category, the driver, the two
   * invalidated-row output capabilities, and its parameter converter applied
   * to a JSON storage parameter.
   */
  datatype ConnectorFactory = ConnectorFactory(
    category: string,
    driver: string,
    invalidateItemCanOutputToSelf: bool,
    invalidateItemCanOutput: bool,
    convertParameter: string -> map<string, JValue>)

  /** `PluginLoader.getOrCreatePlugin(type)` for connector factories. */
  type FactoryRegistry = Option<string> -> Option<ConnectorFactory>

  /** The per-connector SQL script provider (`MetricScript`), reduced to what the modelled metric uses. */
  datatype MetricScript = MetricScript(stdDevActualValue: Option<string> -> string)

  /** One metric definition of a job (`BaseJobParameter`). */
  datatype BaseJobParameter = BaseJobParameter(
    metricType: string,
    metricParameter: Option<Entries>,
    expectedType: Option<string>,
    expectedParameter: Option<Entries>,
    resultFormula: JValue,
    operator: JValue,
    threshold: JValue)

  predicate IsLowerHex(c: char) {
    '0' <= c <= '9' || 'a' <= c <= 'f'
  }

  /** What `DigestUtils.md5Hex` returns: 32 lower-case hexadecimal digits. */
  type HexDigest = s: string | |s| == 32 && forall i :: 0 <= i < |s| ==> IsLowerHex(s[i])
    witness "00000000000000000000000000000000"

  /** MD5 is left uninterpreted: any deterministic function onto hex digests. */
  type Md5 = string -> HexDigest

  /** The `%s` text of a metric-parameter entry. */
  function ParamText(mp: Entries, k: string): string {
    Show(Lookup(mp, k))
  }
}
