/**
 * The job-plan compiler's parameter-context construction and transform
 * ordering (`BaseJobConfigurationBuilder`).
 *
 * `init` builds a job-wide base context and one copy-on-write context per
 * metric, keyed by the metric's 8-character unique key;
 * `buildTransformConfigs` then walks the metrics in input order and appends,
 * per metric, the stages INVALIDATE_ITEMS (optional), ACTUAL_VALUE (optional)
 * and exactly one EXPECTED_VALUE stage, threading the produced table names
 * through that metric's context.
 */
module JobConfiguration {
  import opened Common
  import opened Api

  /** The calendar placeholders, already formatted: the clock is an input. */
  datatype Calendar = Calendar(
    weekStart: string, weekEnd: string, monthStart: string, monthEnd: string,
    dayStart: string, dayEnd: string, dayAfter7End: string, dayAfter30End: string)

  /** Global configuration (`CommonPropertyUtils`): properties and the built-in defaults. */
  datatype CommonProperties = CommonProperties(
    props: map<string, string>,
    errorDataDirDefault: string,
    columnSeparatorDefault: string,
    lineSeparatorDefault: string,
    validateResultDataDirDefault: string)

  // Global property names (also the separator keys of a file storage parameter).
  const PROPERTY_ERROR_DATA_DIR := "error.data.dir"
  const PROPERTY_COLUMN_SEPARATOR := "column_separator"
  const PROPERTY_LINE_SEPARATOR := "line_separator"
  const PROPERTY_VALIDATE_RESULT_DATA_DIR := "validate.result.data.dir"

  /** `CommonPropertyUtils.getString(key, default)`. */
  function GetString(c: CommonProperties, key: string, default: string): string {
    if key in c.props then c.props[key] else default
  }

  /** The parts of `JobExecutionInfo` the compiler reads; storage parameters are JSON text. */
  datatype JobExecutionInfo = JobExecutionInfo(
    id: int,
    engineType: Option<string>,
    errorDataFileName: Option<string>,
    errorDataStorageType: Option<string>,
    errorDataStorageParameter: Option<string>,
    validateResultDataStorageType: Option<string>,
    validateResultDataStorageParameter: Option<string>,
    metricParameterList: seq<BaseJobParameter>)

  /** `JSONUtils.toMap` on a storage parameter. */
  type JsonToMap = Option<string> -> map<string, string>

  /** One transform stage: its type, its SQL and the context it was configured from. */
  datatype TransformConfig = TransformConfig(kind: TransformType, executeSql: ExecuteSql, context: ParamMap)

  datatype SourceType = Source | Target | Metadata

  datatype SourceConfig = SourceConfig(plugin: string, sourceType: SourceType, config: map<string, JValue>)

  datatype SinkConfig = SinkConfig(plugin: Option<string>, config: map<string, JValue>)

  /**
   * The collaborators `buildTransformConfigs` calls: the two plugin
   * registries, `MetricParserUtils.operateInputParameter` and
   * `MetricParserUtils.generateUniqueCode`.
   */
  datatype CompileEnv = CompileEnv(
    metricPlugins: string -> Option<SqlMetric>,
    expectedPlugins: string -> Option<ExpectedValue>,
    operate: (ParamMap, SqlMetric) -> ParamMap,
    uniqueCode: ParamMap -> string)

  // ---------------------------------------------------------------------
  // Unique key

  /** `type_db_table_column_jobId`, the text whose MD5 names a metric. */
  function IdentityText(metricType: string, mp: Entries, jobId: int): string {
    metricType + "_" + ParamText(mp, DATABASE) + "_" + ParamText(mp, TABLE) + "_"
      + ParamText(mp, COLUMN) + "_" + IntToString(jobId)
  }

  /**
   * The metric's unique key: the first 8 characters of the MD5 hex of its
   * identity text.  A null metric-parameter map fails (NullPointerException).
   */
  function MetricUniqueKey(p: BaseJobParameter, jobId: int, md5: Md5): (r: Option<string>)
    ensures r.Some? <==> p.metricParameter.Some?
    ensures r.Some? ==> |r.value| == 8 && forall i :: 0 <= i < 8 ==> IsLowerHex(r.value[i])
    ensures r.Some? ==> StartsWith(md5(IdentityText(p.metricType, p.metricParameter.value, jobId)), r.value)
  {
    if p.metricParameter.None? then None
    else Some(md5(IdentityText(p.metricType, p.metricParameter.value, jobId))[..8])
  }

  /** The key depends on nothing but the type, database, table, column and job id. */
  lemma UniqueKeyDeterminedByIdentity(p: BaseJobParameter, q: BaseJobParameter, jobId: int, md5: Md5)
    requires p.metricParameter.Some? && q.metricParameter.Some?
    requires p.metricType == q.metricType
    requires forall k :: k in {DATABASE, TABLE, COLUMN} ==>
      ParamText(p.metricParameter.value, k) == ParamText(q.metricParameter.value, k)
    ensures MetricUniqueKey(p, jobId, md5) == MetricUniqueKey(q, jobId, md5)
  {
    assert DATABASE in {DATABASE, TABLE, COLUMN};
    assert TABLE in {DATABASE, TABLE, COLUMN};
    assert COLUMN in {DATABASE, TABLE, COLUMN};
  }

  // ---------------------------------------------------------------------
  // Base context

  function CalendarContext(m: ParamMap, cal: Calendar): ParamMap {
    m[WEEK_START_DAY := Some(cal.weekStart)]
     [WEEK_END_DAY := Some(cal.weekEnd)]
     [MONTH_START_DAY := Some(cal.monthStart)]
     [MONTH_END_DAY := Some(cal.monthEnd)]
     [DAY_START_TIME := Some(cal.dayStart)]
     [DAY_END_TIME := Some(cal.dayEnd)]
     [DAY_AFTER_7_END_TIME := Some(cal.dayAfter7End)]
     [DAY_AFTER_30_END_TIME := Some(cal.dayAfter30End)]
  }

  /** `x == null ? default : x` on a storage-parameter entry. */
  function OrDefault(sp: map<string, string>, key: string, default: string): string {
    if key in sp then sp[key] else default
  }

  function ErrorOutputContext(m: ParamMap, info: JobExecutionInfo, props: CommonProperties, toMap: JsonToMap): ParamMap {
    if EqualsIgnoreCase(FILE, info.errorDataStorageType) then
      var sp := toMap(info.errorDataStorageParameter);
      m[ERROR_DATA_DIR := GetStr(sp, DATA_DIR)]
       [COLUMN_SEPARATOR := Some(OrDefault(sp, PROPERTY_COLUMN_SEPARATOR, props.columnSeparatorDefault))]
       [LINE_SEPARATOR := Some(OrDefault(sp, PROPERTY_LINE_SEPARATOR, props.lineSeparatorDefault))]
    else
      m[ERROR_DATA_DIR := Some(GetString(props, PROPERTY_ERROR_DATA_DIR, props.errorDataDirDefault))]
       [COLUMN_SEPARATOR := Some(GetString(props, PROPERTY_COLUMN_SEPARATOR, props.columnSeparatorDefault))]
       [LINE_SEPARATOR := Some(GetString(props, PROPERTY_LINE_SEPARATOR, props.lineSeparatorDefault))]
  }

  function ValidateResultContext(m: ParamMap, info: JobExecutionInfo, props: CommonProperties, toMap: JsonToMap): ParamMap {
    if EqualsIgnoreCase(FILE, info.validateResultDataStorageType) then
      m[VALIDATE_RESULT_DATA_DIR := GetStr(toMap(info.validateResultDataStorageParameter), DATA_DIR)]
    else
      m[VALIDATE_RESULT_DATA_DIR := Some(GetString(props, PROPERTY_VALIDATE_RESULT_DATA_DIR, props.validateResultDataDirDefault))]
  }

  /** The job-wide base context `init` leaves in `inputParameter`. */
  function BaseContext(input: ParamMap, info: JobExecutionInfo, cal: Calendar, props: CommonProperties, toMap: JsonToMap): ParamMap {
    var m := CalendarContext(input, cal)[COLUMN := Some("")][ERROR_DATA_FILE_NAME := info.errorDataFileName];
    ValidateResultContext(ErrorOutputContext(m, info, props, toMap), info, props, toMap)
  }

  /** The keys `init` writes into the base context. */
  const BaseKeys: set<string> := {
    WEEK_START_DAY, WEEK_END_DAY, MONTH_START_DAY, MONTH_END_DAY, DAY_START_TIME,
    DAY_END_TIME, DAY_AFTER_7_END_TIME, DAY_AFTER_30_END_TIME, COLUMN,
    ERROR_DATA_FILE_NAME, ERROR_DATA_DIR, COLUMN_SEPARATOR, LINE_SEPARATOR,
    VALIDATE_RESULT_DATA_DIR }

  /** The four output-location keys. */
  const OutputKeys: set<string> := {ERROR_DATA_DIR, COLUMN_SEPARATOR, LINE_SEPARATOR, VALIDATE_RESULT_DATA_DIR}

  /** The output-location step adds its four keys and leaves every other key alone. */
  lemma OutputContextsKeep(m: ParamMap, info: JobExecutionInfo, props: CommonProperties, toMap: JsonToMap)
    ensures var b := ValidateResultContext(ErrorOutputContext(m, info, props, toMap), info, props, toMap);
      && b.Keys == m.Keys + OutputKeys
      && forall k :: k in m && k !in OutputKeys ==> b[k] == m[k]
  {
  }

  /** The base context holds every key of the input and the base keys, and nothing else. */
  lemma BaseContextKeys(input: ParamMap, info: JobExecutionInfo, cal: Calendar, props: CommonProperties, toMap: JsonToMap)
    ensures BaseContext(input, info, cal, props, toMap).Keys == input.Keys + BaseKeys
  {
    var m := CalendarContext(input, cal)[COLUMN := Some("")][ERROR_DATA_FILE_NAME := info.errorDataFileName];
    OutputContextsKeep(m, info, props, toMap);
  }

  lemma CalendarContextValues(m: ParamMap, cal: Calendar)
    ensures var c := CalendarContext(m, cal);
      && c[WEEK_START_DAY] == Some(cal.weekStart) && c[WEEK_END_DAY] == Some(cal.weekEnd)
      && c[MONTH_START_DAY] == Some(cal.monthStart) && c[MONTH_END_DAY] == Some(cal.monthEnd)
      && c[DAY_START_TIME] == Some(cal.dayStart) && c[DAY_END_TIME] == Some(cal.dayEnd)
      && c[DAY_AFTER_7_END_TIME] == Some(cal.dayAfter7End)
      && c[DAY_AFTER_30_END_TIME] == Some(cal.dayAfter30End)
  {
  }

  /** The base context holds an empty column and the error file name. */
  lemma BaseContextColumn(input: ParamMap, info: JobExecutionInfo, cal: Calendar, props: CommonProperties, toMap: JsonToMap)
    ensures var b := BaseContext(input, info, cal, props, toMap);
      b[COLUMN] == Some("") && b[ERROR_DATA_FILE_NAME] == info.errorDataFileName
  {
    var m := CalendarContext(input, cal)[COLUMN := Some("")][ERROR_DATA_FILE_NAME := info.errorDataFileName];
    OutputContextsKeep(m, info, props, toMap);
  }

  /** The calendar keys are none of the keys written after them. */
  lemma CalendarKeysDistinct()
    ensures forall k :: k in CalendarKeys ==> k !in OutputKeys && k != COLUMN && k != ERROR_DATA_FILE_NAME
  {
  }

  const CalendarKeys: set<string> := {WEEK_START_DAY, WEEK_END_DAY, MONTH_START_DAY, MONTH_END_DAY, DAY_START_TIME,
    DAY_END_TIME, DAY_AFTER_7_END_TIME, DAY_AFTER_30_END_TIME}

  /** The base context holds every calendar placeholder. */
  lemma BaseContextCalendar(input: ParamMap, info: JobExecutionInfo, cal: Calendar, props: CommonProperties, toMap: JsonToMap)
    ensures var b := BaseContext(input, info, cal, props, toMap);
      && Get(b, WEEK_START_DAY) == Some(cal.weekStart) && Get(b, WEEK_END_DAY) == Some(cal.weekEnd)
      && Get(b, MONTH_START_DAY) == Some(cal.monthStart) && Get(b, MONTH_END_DAY) == Some(cal.monthEnd)
      && Get(b, DAY_START_TIME) == Some(cal.dayStart) && Get(b, DAY_END_TIME) == Some(cal.dayEnd)
      && Get(b, DAY_AFTER_7_END_TIME) == Some(cal.dayAfter7End)
      && Get(b, DAY_AFTER_30_END_TIME) == Some(cal.dayAfter30End)
  {
    CalendarContextValues(input, cal);
    CalendarKeysDistinct();
    BaseContextAt(input, info, cal, props, toMap, WEEK_START_DAY);
    BaseContextAt(input, info, cal, props, toMap, WEEK_END_DAY);
    BaseContextAt(input, info, cal, props, toMap, MONTH_START_DAY);
    BaseContextAt(input, info, cal, props, toMap, MONTH_END_DAY);
    BaseContextAt(input, info, cal, props, toMap, DAY_START_TIME);
    BaseContextAt(input, info, cal, props, toMap, DAY_END_TIME);
    BaseContextAt(input, info, cal, props, toMap, DAY_AFTER_7_END_TIME);
    BaseContextAt(input, info, cal, props, toMap, DAY_AFTER_30_END_TIME);
  }

  /** A key outside the output-location keys holds what the calendar, column and file-name puts left. */
  lemma BaseContextAt(input: ParamMap, info: JobExecutionInfo, cal: Calendar, props: CommonProperties, toMap: JsonToMap, k: string)
    requires k !in OutputKeys
    ensures Get(BaseContext(input, info, cal, props, toMap), k)
      == Get(CalendarContext(input, cal)[COLUMN := Some("")][ERROR_DATA_FILE_NAME := info.errorDataFileName], k)
  {
    var m := CalendarContext(input, cal)[COLUMN := Some("")][ERROR_DATA_FILE_NAME := info.errorDataFileName];
    OutputContextsKeep(m, info, props, toMap);
  }

  /** Input entries under keys `init` does not write keep their values. */
  lemma BaseContextKeepsInput(input: ParamMap, info: JobExecutionInfo, cal: Calendar, props: CommonProperties, toMap: JsonToMap, k: string)
    requires k in input && k !in BaseKeys
    ensures BaseContext(input, info, cal, props, toMap)[k] == input[k]
  {
    var m := CalendarContext(input, cal)[COLUMN := Some("")][ERROR_DATA_FILE_NAME := info.errorDataFileName];
    OutputContextsKeep(m, info, props, toMap);
  }

  /**
   * Where error rows go: from the storage parameters when the storage type
   * is "file" in any case (a separator falls back to its default only when
   * absent), otherwise from global configuration with defaults.
   */
  lemma ErrorOutputLocation(input: ParamMap, info: JobExecutionInfo, cal: Calendar, props: CommonProperties, toMap: JsonToMap)
    ensures var b := BaseContext(input, info, cal, props, toMap);
      var sp := toMap(info.errorDataStorageParameter);
      && (EqualsIgnoreCase(FILE, info.errorDataStorageType) ==>
          && b[ERROR_DATA_DIR] == GetStr(sp, DATA_DIR)
          && b[COLUMN_SEPARATOR] == Some(if PROPERTY_COLUMN_SEPARATOR in sp then sp[PROPERTY_COLUMN_SEPARATOR] else props.columnSeparatorDefault)
          && b[LINE_SEPARATOR] == Some(if PROPERTY_LINE_SEPARATOR in sp then sp[PROPERTY_LINE_SEPARATOR] else props.lineSeparatorDefault))
      && (!EqualsIgnoreCase(FILE, info.errorDataStorageType) ==>
          && b[ERROR_DATA_DIR] == Some(GetString(props, PROPERTY_ERROR_DATA_DIR, props.errorDataDirDefault))
          && b[COLUMN_SEPARATOR] == Some(GetString(props, PROPERTY_COLUMN_SEPARATOR, props.columnSeparatorDefault))
          && b[LINE_SEPARATOR] == Some(GetString(props, PROPERTY_LINE_SEPARATOR, props.lineSeparatorDefault)))
      && (EqualsIgnoreCase(FILE, info.validateResultDataStorageType) ==>
          b[VALIDATE_RESULT_DATA_DIR] == GetStr(toMap(info.validateResultDataStorageParameter), DATA_DIR))
      && (!EqualsIgnoreCase(FILE, info.validateResultDataStorageType) ==>
          b[VALIDATE_RESULT_DATA_DIR] == Some(GetString(props, PROPERTY_VALIDATE_RESULT_DATA_DIR, props.validateResultDataDirDefault)))
  {
  }

  // ---------------------------------------------------------------------
  // Per-metric context

  /** The keys of a parameter bag. */
  function KeysOf(es: seq<(string, JValue)>): set<string> {
    set i | 0 <= i < |es| :: es[i].0
  }

  /** `forEach((k, v) -> m.put(k, String.valueOf(v)))` over the metric parameters. */
  function PutAll(m: ParamMap, es: seq<(string, JValue)>): ParamMap
    decreases |es|
  {
    if es == [] then m else PutAll(m[es[0].0 := Some(Show(es[0].1))], es[1..])
  }

  /** One expected-parameter entry: a non-null literal expected value is also published under `evKey`. */
  function PutExpectedEntry(m: ParamMap, k: string, v: JValue, evKey: string): ParamMap {
    var m1 := if k == EXPECTED_VALUE && v != JNull then m[evKey := Some(Show(v))] - {EXPECTED_VALUE} else m;
    m1[k := Some(Show(v))]
  }

  /** The expected-parameter `forEach`. */
  function PutExpected(m: ParamMap, es: seq<(string, JValue)>, evKey: string): ParamMap
    decreases |es|
  {
    if es == [] then m else PutExpected(PutExpectedEntry(m, es[0].0, es[0].1, evKey), es[1..], evKey)
  }

  /** The keys whose values are fixed last, whatever the parameter bags hold. */
  const FinalKeys: set<string> := {RESULT_FORMULA, OPERATOR, THRESHOLD, EXPECTED_TYPE, INVALIDATE_ITEM_CAN_OUTPUT, ENGINE_TYPE}

  /** The per-metric context: a copy of the base map overlaid with the metric's parameters. */
  function MetricContext(base: ParamMap, key: string, p: BaseJobParameter, mp: Entries, engineType: Option<string>): ParamMap {
    var m1 := base[METRIC_UNIQUE_KEY := Some(key)][ExpectedValueKey(key) := None];
    var m2 := PutAll(m1, mp);
    var m3 := if p.expectedParameter.Some? then PutExpected(m2, p.expectedParameter.value, ExpectedValueKey(key)) else m2;
    m3[RESULT_FORMULA := Some(Show(p.resultFormula))]
      [OPERATOR := Some(Show(p.operator))]
      [THRESHOLD := Some(Show(p.threshold))]
      [EXPECTED_TYPE := Some(Quote(p.expectedType))]
      [INVALIDATE_ITEM_CAN_OUTPUT := Some("true")]
      [ENGINE_TYPE := engineType]
  }

  lemma KeysOfCons(es: seq<(string, JValue)>)
    requires es != []
    ensures KeysOf(es) == {es[0].0} + KeysOf(es[1..])
  {
    forall k | k in KeysOf(es) ensures k in {es[0].0} + KeysOf(es[1..]) {
      var i :| 0 <= i < |es| && es[i].0 == k;
      if i > 0 { assert es[1..][i - 1].0 == k; }
    }
    forall k | k in KeysOf(es[1..]) ensures k in KeysOf(es) {
      var i :| 0 <= i < |es[1..]| && es[1..][i].0 == k;
      assert es[i + 1].0 == k;
    }
  }

  lemma HasLiteralExpectedCons(es: seq<(string, JValue)>)
    requires es != []
    ensures HasLiteralExpected(es) <==>
      (es[0].0 == EXPECTED_VALUE && es[0].1 != JNull) || HasLiteralExpected(es[1..])
  {
    if HasLiteralExpected(es) {
      var i :| 0 <= i < |es| && es[i].0 == EXPECTED_VALUE && es[i].1 != JNull;
      if i > 0 { assert es[1..][i - 1] == es[i]; }
    }
    if HasLiteralExpected(es[1..]) {
      var i :| 0 <= i < |es[1..]| && es[1..][i].0 == EXPECTED_VALUE && es[1..][i].1 != JNull;
      assert es[i + 1] == es[1..][i];
    }
  }

  lemma {:induction false} PutAllKeys(m: ParamMap, es: seq<(string, JValue)>)
    ensures PutAll(m, es).Keys == m.Keys + KeysOf(es)
    decreases |es|
  {
    if es != [] {
      PutAllKeys(m[es[0].0 := Some(Show(es[0].1))], es[1..]);
      KeysOfCons(es);
    }
  }

  /** Each metric parameter lands as its string value; other keys keep their values. */
  lemma {:induction false} PutAllValues(m: ParamMap, es: seq<(string, JValue)>, k: string)
    requires DistinctKeys(es)
    ensures forall i :: 0 <= i < |es| && es[i].0 == k ==> Get(PutAll(m, es), k) == Some(Show(es[i].1))
    ensures k !in KeysOf(es) ==> Get(PutAll(m, es), k) == Get(m, k)
    decreases |es|
  {
    if es != [] {
      var m1 := m[es[0].0 := Some(Show(es[0].1))];
      PutAllValues(m1, es[1..], k);
      forall i | 0 <= i < |es| && es[i].0 == k ensures Get(PutAll(m, es), k) == Some(Show(es[i].1)) {
        if i > 0 {
          assert es[1..][i - 1] == es[i];
        } else {
          forall j | 0 <= j < |es[1..]| ensures es[1..][j].0 != k {
            assert es[1..][j] == es[j + 1];
          }
          assert k !in KeysOf(es[1..]);
        }
      }
      if k !in KeysOf(es) {
        assert es[0].0 in KeysOf(es);
        forall j | 0 <= j < |es[1..]| ensures es[1..][j].0 != k {
          assert es[1..][j] == es[j + 1];
          assert es[j + 1].0 in KeysOf(es);
        }
        assert k !in KeysOf(es[1..]);
      }
    }
  }

  /** True when the bag holds a non-null literal expected value. */
  predicate HasLiteralExpected(es: seq<(string, JValue)>) {
    exists i :: 0 <= i < |es| && es[i].0 == EXPECTED_VALUE && es[i].1 != JNull
  }

  lemma {:induction false} PutExpectedKeys(m: ParamMap, es: seq<(string, JValue)>, evKey: string)
    ensures PutExpected(m, es, evKey).Keys == m.Keys + KeysOf(es) + (if HasLiteralExpected(es) then {evKey} else {})
    decreases |es|
  {
    if es != [] {
      var m1 := PutExpectedEntry(m, es[0].0, es[0].1, evKey);
      PutExpectedKeys(m1, es[1..], evKey);
      KeysOfCons(es);
      HasLiteralExpectedCons(es);
    }
  }

  /**
   * Every expected parameter other than one literally named `evKey` ends up
   * as its string value: the removal of `expected_value` is always followed
   * by the put of that same key.  A key the bag does not name, other than
   * `evKey`, is left as it was.
   */
  lemma {:induction false} PutExpectedValues(m: ParamMap, es: seq<(string, JValue)>, evKey: string, k: string)
    requires DistinctKeys(es)
    requires k != evKey
    ensures forall i :: 0 <= i < |es| && es[i].0 == k ==> Get(PutExpected(m, es, evKey), k) == Some(Show(es[i].1))
    ensures k !in KeysOf(es) ==> Get(PutExpected(m, es, evKey), k) == Get(m, k)
    decreases |es|
  {
    if es != [] {
      var m1 := PutExpectedEntry(m, es[0].0, es[0].1, evKey);
      PutExpectedValues(m1, es[1..], evKey, k);
      forall i | 0 <= i < |es| && es[i].0 == k ensures Get(PutExpected(m, es, evKey), k) == Some(Show(es[i].1)) {
        if i > 0 {
          assert es[1..][i - 1] == es[i];
        } else {
          forall j | 0 <= j < |es[1..]| ensures es[1..][j].0 != k {
            assert es[1..][j] == es[j + 1];
          }
          assert k !in KeysOf(es[1..]);
        }
      }
      if k !in KeysOf(es) {
        assert es[0].0 in KeysOf(es);
        forall j | 0 <= j < |es[1..]| ensures es[1..][j].0 != k {
          assert es[1..][j] == es[j + 1];
          assert es[j + 1].0 in KeysOf(es);
        }
        assert k !in KeysOf(es[1..]);
      }
    }
  }

  /**
   * When no bag names `evKey` itself, `evKey` holds the literal expected
   * value exactly when one is given, and otherwise keeps its earlier value.
   */
  lemma {:induction false} PutExpectedLiteral(m: ParamMap, es: seq<(string, JValue)>, evKey: string)
    requires DistinctKeys(es)
    requires evKey !in KeysOf(es) && evKey != EXPECTED_VALUE
    ensures Lookup(es, EXPECTED_VALUE) != JNull ==>
      Get(PutExpected(m, es, evKey), evKey) == Some(Show(Lookup(es, EXPECTED_VALUE)))
    ensures Lookup(es, EXPECTED_VALUE) == JNull ==>
      Get(PutExpected(m, es, evKey), evKey) == Get(m, evKey)
    decreases |es|
  {
    if es != [] {
      var m1 := PutExpectedEntry(m, es[0].0, es[0].1, evKey);
      assert es[0].0 in KeysOf(es);
      assert evKey !in KeysOf(es[1..]) by {
        forall j | 0 <= j < |es[1..]| ensures es[1..][j].0 != evKey {
          assert es[1..][j] == es[j + 1];
          assert es[j + 1].0 in KeysOf(es);
        }
      }
      PutExpectedLiteral(m1, es[1..], evKey);
      if es[0].0 == EXPECTED_VALUE {
        assert Lookup(es, EXPECTED_VALUE) == es[0].1;
        assert Lookup(es[1..], EXPECTED_VALUE) == JNull by {
          forall j | 0 <= j < |es[1..]| ensures es[1..][j].0 != EXPECTED_VALUE {
            assert es[1..][j] == es[j + 1];
          }
        }
      } else {
        assert Lookup(es, EXPECTED_VALUE) == Lookup(es[1..], EXPECTED_VALUE);
      }
    }
  }

  /** The six values written last hold whatever the parameter bags contain. */
  lemma MetricContextFinalValues(base: ParamMap, key: string, p: BaseJobParameter, mp: Entries, engineType: Option<string>)
    ensures var c := MetricContext(base, key, p, mp, engineType);
      && c[RESULT_FORMULA] == Some(Show(p.resultFormula))
      && c[OPERATOR] == Some(Show(p.operator))
      && c[THRESHOLD] == Some(Show(p.threshold))
      && c[EXPECTED_TYPE] == Some("'" + ShowStr(p.expectedType) + "'")
      && c[INVALIDATE_ITEM_CAN_OUTPUT] == Some("true")
      && c[ENGINE_TYPE] == engineType
  {
  }

  /** The expected bag of a metric, empty when null. */
  function ExpectedEntries(p: BaseJobParameter): Entries {
    if p.expectedParameter.Some? then p.expectedParameter.value else []
  }

  /**
   * Copy-on-write: the per-metric context holds every key of the base map,
   * the unique key, `expected_value_<key>`, every parameter key and the six
   * final keys, and nothing else.
   */
  lemma MetricContextKeys(base: ParamMap, key: string, p: BaseJobParameter, mp: Entries, engineType: Option<string>)
    ensures MetricContext(base, key, p, mp, engineType).Keys ==
      base.Keys + {METRIC_UNIQUE_KEY, ExpectedValueKey(key)} + KeysOf(mp) + KeysOf(ExpectedEntries(p)) + FinalKeys
  {
    var m1 := base[METRIC_UNIQUE_KEY := Some(key)][ExpectedValueKey(key) := None];
    PutAllKeys(m1, mp);
    var m2 := PutAll(m1, mp);
    if p.expectedParameter.Some? {
      PutExpectedKeys(m2, p.expectedParameter.value, ExpectedValueKey(key));
    }
  }

  /**
   * Every metric parameter appears as `String.valueOf(v)` unless an expected
   * parameter, a final key or `expected_value_<key>` overrides it; every
   * expected parameter appears as `String.valueOf(v)` unless it is a final
   * key or is literally named `expected_value_<key>`.
   */
  lemma MetricContextParameters(base: ParamMap, key: string, p: BaseJobParameter, mp: Entries, engineType: Option<string>, k: string)
    ensures var c := MetricContext(base, key, p, mp, engineType);
      && (forall i :: 0 <= i < |mp| && mp[i].0 == k && k !in FinalKeys && k !in KeysOf(ExpectedEntries(p)) && k != ExpectedValueKey(key)
            ==> Get(c, k) == Some(Show(mp[i].1)))
      && (forall i :: 0 <= i < |ExpectedEntries(p)| && ExpectedEntries(p)[i].0 == k && k !in FinalKeys && k != ExpectedValueKey(key)
            ==> Get(c, k) == Some(Show(ExpectedEntries(p)[i].1)))
  {
    var ek := ExpectedValueKey(key);
    var m1 := base[METRIC_UNIQUE_KEY := Some(key)][ek := None];
    var m2 := PutAll(m1, mp);
    PutAllValues(m1, mp, k);
    if k != ek {
      PutExpectedValues(m2, ExpectedEntries(p), ek, k);
    }
  }

  /**
   * When neither bag names `expected_value_<key>`, that key holds the literal
   * expected value if the expected bag gives a non-null one, and null otherwise.
   */
  lemma MetricContextExpectedValue(base: ParamMap, key: string, p: BaseJobParameter, mp: Entries, engineType: Option<string>)
    requires ExpectedValueKey(key) !in KeysOf(mp) + KeysOf(ExpectedEntries(p))
    ensures var c := MetricContext(base, key, p, mp, engineType);
      var lit := Lookup(ExpectedEntries(p), EXPECTED_VALUE);
      && ExpectedValueKey(key) in c
      && c[ExpectedValueKey(key)] == (if lit != JNull then Some(Show(lit)) else None)
  {
    var ek := ExpectedValueKey(key);
    var m1 := base[METRIC_UNIQUE_KEY := Some(key)][ek := None];
    var m2 := PutAll(m1, mp);
    PutAllValues(m1, mp, ek);
    PutAllKeys(m1, mp);
    assert ek != EXPECTED_VALUE by { assert |ek| > |EXPECTED_VALUE|; }
    PutExpectedLiteral(m2, ExpectedEntries(p), ek);
    PutExpectedKeys(m2, ExpectedEntries(p), ek);
    assert ek !in FinalKeys by {
      assert |ek| >= 15 && ek[0] == 'e';
      assert INVALIDATE_ITEM_CAN_OUTPUT[0] == 'i';
    }
  }

  /** When no bag overrides them, base entries and the unique key keep their values. */
  lemma MetricContextKeepsBase(base: ParamMap, key: string, p: BaseJobParameter, mp: Entries, engineType: Option<string>, k: string)
    requires k !in KeysOf(mp) + KeysOf(ExpectedEntries(p)) + FinalKeys
    requires k != ExpectedValueKey(key)
    ensures var c := MetricContext(base, key, p, mp, engineType);
      && (k == METRIC_UNIQUE_KEY ==> Get(c, k) == Some(key))
      && (k != METRIC_UNIQUE_KEY ==> Get(c, k) == Get(base, k))
  {
    var ek := ExpectedValueKey(key);
    var m1 := base[METRIC_UNIQUE_KEY := Some(key)][ek := None];
    PutAllValues(m1, mp, k);
    PutExpectedValues(PutAll(m1, mp), ExpectedEntries(p), ek, k);
  }

  /** The contexts `init` derives, in input order, stopping at the first null metric-parameter map. */
  function InitContexts(acc: map<string, ParamMap>, base: ParamMap, info: JobExecutionInfo, md5: Md5, ps: seq<BaseJobParameter>): map<string, ParamMap>
    decreases |ps|
  {
    if ps == [] || ps[0].metricParameter.None? then acc
    else
      var key := MetricUniqueKey(ps[0], info.id, md5).value;
      InitContexts(acc[key := MetricContext(base, key, ps[0], ps[0].metricParameter.value, info.engineType)], base, info, md5, ps[1..])
  }

  /** True when every metric of the list has a metric-parameter map. */
  predicate AllHaveParameters(ps: seq<BaseJobParameter>) {
    forall i :: 0 <= i < |ps| ==> ps[i].metricParameter.Some?
  }

  /** After `init`, every metric of the list has a context under its unique key. */
  lemma {:induction false} InitContextsCoverMetrics(acc: map<string, ParamMap>, base: ParamMap, info: JobExecutionInfo, md5: Md5, ps: seq<BaseJobParameter>)
    requires AllHaveParameters(ps)
    ensures acc.Keys <= InitContexts(acc, base, info, md5, ps).Keys
    ensures forall i :: 0 <= i < |ps| ==> MetricUniqueKey(ps[i], info.id, md5).value in InitContexts(acc, base, info, md5, ps)
    decreases |ps|
  {
    if ps != [] {
      var key := MetricUniqueKey(ps[0], info.id, md5).value;
      var acc' := acc[key := MetricContext(base, key, ps[0], ps[0].metricParameter.value, info.engineType)];
      assert AllHaveParameters(ps[1..]) by {
        forall i | 0 <= i < |ps[1..]| ensures ps[1..][i].metricParameter.Some? {
          assert ps[1..][i] == ps[i + 1];
        }
      }
      InitContextsCoverMetrics(acc', base, info, md5, ps[1..]);
      forall i | 0 <= i < |ps| ensures MetricUniqueKey(ps[i], info.id, md5).value in InitContexts(acc, base, info, md5, ps) {
        if i > 0 { assert ps[1..][i - 1] == ps[i]; }
      }
    }
  }

  /** True when no two metrics of the list share a unique key. */
  predicate DistinctUniqueKeys(ps: seq<BaseJobParameter>, jobId: int, md5: Md5)
    requires AllHaveParameters(ps)
  {
    forall i, j :: 0 <= i < j < |ps| ==> MetricUniqueKey(ps[i], jobId, md5) != MetricUniqueKey(ps[j], jobId, md5)
  }

  /** With distinct unique keys, each metric's context is built from that metric alone. */
  lemma {:induction false} InitContextsPerMetric(acc: map<string, ParamMap>, base: ParamMap, info: JobExecutionInfo, md5: Md5, ps: seq<BaseJobParameter>)
    requires AllHaveParameters(ps) && DistinctUniqueKeys(ps, info.id, md5)
    ensures forall i :: 0 <= i < |ps| ==>
      var key := MetricUniqueKey(ps[i], info.id, md5).value;
      key in InitContexts(acc, base, info, md5, ps)
      && InitContexts(acc, base, info, md5, ps)[key] == MetricContext(base, key, ps[i], ps[i].metricParameter.value, info.engineType)
    decreases |ps|
  {
    InitContextsCoverMetrics(acc, base, info, md5, ps);
    if ps != [] {
      var key := MetricUniqueKey(ps[0], info.id, md5).value;
      var acc' := acc[key := MetricContext(base, key, ps[0], ps[0].metricParameter.value, info.engineType)];
      var rest := ps[1..];
      assert AllHaveParameters(rest) by {
        forall i | 0 <= i < |rest| ensures rest[i].metricParameter.Some? { assert rest[i] == ps[i + 1]; }
      }
      assert DistinctUniqueKeys(rest, info.id, md5) by {
        forall i, j | 0 <= i < j < |rest| ensures MetricUniqueKey(rest[i], info.id, md5) != MetricUniqueKey(rest[j], info.id, md5) {
          assert rest[i] == ps[i + 1] && rest[j] == ps[j + 1];
        }
      }
      InitContextsPerMetric(acc', base, info, md5, rest);
      InitContextsUntouched(acc', base, info, md5, rest, key);
      forall i | 0 <= i < |ps| ensures
        var k := MetricUniqueKey(ps[i], info.id, md5).value;
        k in InitContexts(acc, base, info, md5, ps) &&
        InitContexts(acc, base, info, md5, ps)[k] == MetricContext(base, k, ps[i], ps[i].metricParameter.value, info.engineType)
      {
        if i > 0 { assert rest[i - 1] == ps[i]; }
        else {
          forall j | 0 <= j < |rest| ensures MetricUniqueKey(rest[j], info.id, md5).value != key {
            assert rest[j] == ps[j + 1];
            assert MetricUniqueKey(ps[0], info.id, md5) != MetricUniqueKey(ps[j + 1], info.id, md5);
          }
        }
      }
    }
  }

  /** A key no later metric uses keeps the context it already had. */
  lemma {:induction false} InitContextsUntouched(acc: map<string, ParamMap>, base: ParamMap, info: JobExecutionInfo, md5: Md5, ps: seq<BaseJobParameter>, key: string)
    requires AllHaveParameters(ps)
    requires key in acc
    requires forall j :: 0 <= j < |ps| ==> MetricUniqueKey(ps[j], info.id, md5).value != key
    ensures key in InitContexts(acc, base, info, md5, ps) && InitContexts(acc, base, info, md5, ps)[key] == acc[key]
    decreases |ps|
  {
    if ps != [] {
      var k0 := MetricUniqueKey(ps[0], info.id, md5).value;
      var acc' := acc[k0 := MetricContext(base, k0, ps[0], ps[0].metricParameter.value, info.engineType)];
      forall j | 0 <= j < |ps[1..]| ensures MetricUniqueKey(ps[1..][j], info.id, md5).value != key && ps[1..][j].metricParameter.Some? {
        assert ps[1..][j] == ps[j + 1];
      }
      InitContextsUntouched(acc', base, info, md5, ps[1..], key);
    }
  }

  // ---------------------------------------------------------------------
  // Transform stages

  /** The expected-value stage type: from the metadata store iff the plugin needs the default datasource. */
  function ExpectedStageType(ev: ExpectedValue): (t: TransformType)
    ensures t == ExpectedValueFromMetadataSource <==> ev.needDefaultDatasource
    ensures t == ExpectedValueFromSource <==> !ev.needDefaultDatasource
  {
    if ev.needDefaultDatasource then ExpectedValueFromMetadataSource else ExpectedValueFromSource
  }

  /** The registry key of the expected-value plugin: `engineType + "_" + expectedType`. */
  function ExpectedPluginKey(engineType: Option<string>, expectedType: Option<string>): string {
    ShowStr(engineType) + "_" + ShowStr(expectedType)
  }

  /** What one metric's iteration produces: its stages, its updated context, and whether it completed. */
  datatype StepResult = StepResult(stages: seq<TransformConfig>, ctx: ParamMap, ok: bool)

  /** The context after the output flag is recomputed. */
  function FlagContext(ctx: ParamMap, metric: SqlMetric, env: CompileEnv): ParamMap {
    var flag := ParseBoolean(Get(ctx, INVALIDATE_ITEM_CAN_OUTPUT));
    env.operate(ctx, metric)[INVALIDATE_ITEM_CAN_OUTPUT := Some(BoolToString(flag && metric.invalidateItemsCanOutput))]
  }

  /** The context after the invalidate-items stage (if any) records its table. */
  function InvalidateContext(c2: ParamMap, metric: SqlMetric): ParamMap {
    var inv := metric.invalidateItems(c2);
    if inv.Some? then c2[INVALIDATE_ITEMS_TABLE := inv.value.resultTable] else c2
  }

  /** The context after the actual-value stage (if any) records its table. */
  function ActualContext(c3: ParamMap, metric: SqlMetric): ParamMap {
    var act := metric.actualValue(c3);
    if act.Some? then c3[ACTUAL_TABLE := act.value.resultTable] else c3
  }

  /** The expected-value statement of a plugin. */
  function ExpectedSql(c4: ParamMap, ev: ExpectedValue): ExecuteSql {
    ExecuteSql(ev.executeSql(c4), ev.outputTable(c4), false)
  }

  /** `expected_table` is written only when the output table is non-empty. */
  function ExpectedContext(c4: ParamMap, ev: ExpectedValue): ParamMap {
    var es := ExpectedSql(c4, ev);
    if !IsEmpty(es.resultTable) then c4[EXPECTED_TABLE := es.resultTable] else c4
  }

  /** One iteration of `buildTransformConfigs` for a metric whose plugin was found. */
  function MetricStep(ctx: ParamMap, metric: SqlMetric, ev: Option<ExpectedValue>, env: CompileEnv): StepResult {
    var c2 := FlagContext(ctx, metric, env);
    var inv := metric.invalidateItems(c2);
    var c3 := InvalidateContext(c2, metric);
    var s1 := if inv.Some? then [TransformConfig(InvalidateItems, inv.value, c3)] else [];
    var act := metric.actualValue(c3);
    var s2 := if act.Some? then s1 + [TransformConfig(ActualValue, act.value, c3)] else s1;
    var c4 := ActualContext(c3, metric);
    if ev.None? then StepResult(s2, c4, false)
    else
      var c5 := ExpectedContext(c4, ev.value);
      var c6 := c5[UNIQUE_CODE := Some(Quote(Some(env.uniqueCode(c5))))];
      StepResult(s2 + [TransformConfig(ExpectedStageType(ev.value), ExpectedSql(c4, ev.value), c6)], c6, true)
  }

  /** What the whole walk produces: the stages, the per-metric contexts, and whether it completed. */
  datatype FoldResult = FoldResult(stages: seq<TransformConfig>, contexts: map<string, ParamMap>, ok: bool)

  /** `buildTransformConfigs` over the metrics still to visit, after `acc` was emitted. */
  function BuildStages(acc: seq<TransformConfig>, m2: map<string, ParamMap>, info: JobExecutionInfo, env: CompileEnv, md5: Md5, ps: seq<BaseJobParameter>): FoldResult
    decreases |ps|
  {
    if ps == [] then FoldResult(acc, m2, true)
    else
      var key := MetricUniqueKey(ps[0], info.id, md5);
      if key.None? || key.value !in m2 then FoldResult(acc, m2, false)
      else
        var metric := env.metricPlugins(ps[0].metricType);
        if metric.None? then FoldResult(acc, m2, false)
        else
          var ev := env.expectedPlugins(ExpectedPluginKey(info.engineType, ps[0].expectedType));
          var step := MetricStep(m2[key.value], metric.value, ev, env);
          if !step.ok then FoldResult(acc, m2[key.value := step.ctx], false)
          else BuildStages(acc + step.stages, m2[key.value := step.ctx], info, env, md5, ps[1..])
  }

  predicate IsExpectedStage(t: TransformType) {
    t == ExpectedValueFromMetadataSource || t == ExpectedValueFromSource
  }

  /** An invalidate-items stage whose context already names its output table. */
  predicate InvalidateStageOk(s: TransformConfig) {
    s.kind == InvalidateItems && Get(s.context, INVALIDATE_ITEMS_TABLE) == s.executeSql.resultTable
  }

  /** An actual-value stage that sees the table of the invalidate-items stage before it. */
  predicate ActualStageOk(s: TransformConfig, inv: Option<TransformConfig>) {
    && s.kind == ActualValue
    && (inv.Some? ==> Get(s.context, INVALIDATE_ITEMS_TABLE) == inv.value.executeSql.resultTable)
  }

  /** An expected-value stage that sees every table produced before it, and the unique code. */
  predicate ExpectedStageOk(s: TransformConfig, inv: Option<TransformConfig>, act: Option<TransformConfig>) {
    && IsExpectedStage(s.kind)
    && UNIQUE_CODE in s.context
    && (inv.Some? ==> Get(s.context, INVALIDATE_ITEMS_TABLE) == inv.value.executeSql.resultTable)
    && (act.Some? ==> Get(s.context, ACTUAL_TABLE) == act.value.executeSql.resultTable)
    && (!IsEmpty(s.executeSql.resultTable) ==> Get(s.context, EXPECTED_TABLE) == s.executeSql.resultTable)
  }

  /**
   * One metric's stages: INVALIDATE_ITEMS (optional), then ACTUAL_VALUE
   * (optional), then exactly one EXPECTED_VALUE stage, each configured from a
   * context that names the tables of the stages before it.
   */
  predicate WellOrderedBlock(b: seq<TransformConfig>) {
    || (|b| == 1 && ExpectedStageOk(b[0], None, None))
    || (|b| == 2 && InvalidateStageOk(b[0]) && ExpectedStageOk(b[1], Some(b[0]), None))
    || (|b| == 2 && ActualStageOk(b[0], None) && ExpectedStageOk(b[1], None, Some(b[0])))
    || (|b| == 3 && InvalidateStageOk(b[0]) && ActualStageOk(b[1], Some(b[0]))
                 && ExpectedStageOk(b[2], Some(b[0]), Some(b[1])))
  }

  function Flatten(bs: seq<seq<TransformConfig>>): seq<TransformConfig> {
    if bs == [] then [] else bs[0] + Flatten(bs[1..])
  }

  /**
   * A completed iteration emits one well-ordered block; the output flag is
   * the earlier flag ANDed with the metric's own, in the new context and in
   * every stage's; `unique_code` is computed after `expected_table` is set.
   */
  lemma MetricStepOutcome(ctx: ParamMap, metric: SqlMetric, ev: Option<ExpectedValue>, env: CompileEnv)
    ensures var r := MetricStep(ctx, metric, ev, env);
      var flag := Some(BoolToString(ParseBoolean(Get(ctx, INVALIDATE_ITEM_CAN_OUTPUT)) && metric.invalidateItemsCanOutput));
      && (r.ok <==> ev.Some?)
      && (r.ok ==> WellOrderedBlock(r.stages))
      && (r.ok ==> r.stages[|r.stages| - 1].kind == ExpectedStageType(ev.value))
      && (r.ok ==> var c5 := ExpectedContext(ActualContext(InvalidateContext(FlagContext(ctx, metric, env), metric), metric), ev.value);
                   r.ctx == c5[UNIQUE_CODE := Some(Quote(Some(env.uniqueCode(c5))))])
      && Get(r.ctx, INVALIDATE_ITEM_CAN_OUTPUT) == flag
      && (forall i :: 0 <= i < |r.stages| ==> Get(r.stages[i].context, INVALIDATE_ITEM_CAN_OUTPUT) == flag)
  {
    MetricStepBlock(ctx, metric, ev, env);
    MetricStepFlag(ctx, metric, ev, env);
  }

  /** A completed iteration emits one well-ordered block ending in the expected stage. */
  lemma MetricStepBlock(ctx: ParamMap, metric: SqlMetric, ev: Option<ExpectedValue>, env: CompileEnv)
    ensures var r := MetricStep(ctx, metric, ev, env);
      && (r.ok <==> ev.Some?)
      && (r.ok ==> WellOrderedBlock(r.stages))
      && (r.ok ==> r.stages[|r.stages| - 1].kind == ExpectedStageType(ev.value))
  {
    StageKeysDistinct();
    var c2 := FlagContext(ctx, metric, env);
    var c3 := InvalidateContext(c2, metric);
    var c4 := ActualContext(c3, metric);
    if ev.Some? {
      var c5 := ExpectedContext(c4, ev.value);
      var c6 := c5[UNIQUE_CODE := Some(Quote(Some(env.uniqueCode(c5))))];
      var last := TransformConfig(ExpectedStageType(ev.value), ExpectedSql(c4, ev.value), c6);
      var r := MetricStep(ctx, metric, ev, env);
      if metric.invalidateItems(c2).Some? {
        var inv := TransformConfig(InvalidateItems, metric.invalidateItems(c2).value, c3);
        assert InvalidateStageOk(inv);
        if metric.actualValue(c3).Some? {
          var act := TransformConfig(ActualValue, metric.actualValue(c3).value, c3);
          assert r.stages == [inv, act, last];
          assert ActualStageOk(act, Some(inv));
          assert ExpectedStageOk(last, Some(inv), Some(act));
        } else {
          assert r.stages == [inv, last];
          assert ExpectedStageOk(last, Some(inv), None);
        }
      } else {
        if metric.actualValue(c3).Some? {
          var act := TransformConfig(ActualValue, metric.actualValue(c3).value, c3);
          assert r.stages == [act, last];
          assert ExpectedStageOk(last, None, Some(act));
        } else {
          assert r.stages == [last];
          assert ExpectedStageOk(last, None, None);
        }
      }
    }
  }

  /** The output flag is the earlier flag ANDed with the metric's own, in the new context and in every stage's. */
  lemma MetricStepFlag(ctx: ParamMap, metric: SqlMetric, ev: Option<ExpectedValue>, env: CompileEnv)
    ensures var r := MetricStep(ctx, metric, ev, env);
      var flag := Some(BoolToString(ParseBoolean(Get(ctx, INVALIDATE_ITEM_CAN_OUTPUT)) && metric.invalidateItemsCanOutput));
      && Get(r.ctx, INVALIDATE_ITEM_CAN_OUTPUT) == flag
      && (forall i :: 0 <= i < |r.stages| ==> Get(r.stages[i].context, INVALIDATE_ITEM_CAN_OUTPUT) == flag)
  {
    StageKeysDistinct();
  }

  /** The keys a metric's iteration writes are five different keys. */
  lemma StageKeysDistinct()
    ensures INVALIDATE_ITEM_CAN_OUTPUT != INVALIDATE_ITEMS_TABLE && INVALIDATE_ITEM_CAN_OUTPUT != ACTUAL_TABLE
    ensures INVALIDATE_ITEM_CAN_OUTPUT != EXPECTED_TABLE && INVALIDATE_ITEM_CAN_OUTPUT != UNIQUE_CODE
    ensures INVALIDATE_ITEMS_TABLE != ACTUAL_TABLE && INVALIDATE_ITEMS_TABLE != EXPECTED_TABLE && INVALIDATE_ITEMS_TABLE != UNIQUE_CODE
    ensures ACTUAL_TABLE != EXPECTED_TABLE && ACTUAL_TABLE != UNIQUE_CODE && EXPECTED_TABLE != UNIQUE_CODE
  {
    assert INVALIDATE_ITEM_CAN_OUTPUT[15] == '_' && INVALIDATE_ITEMS_TABLE[15] == 's';
    assert INVALIDATE_ITEM_CAN_OUTPUT[0] == 'i' && INVALIDATE_ITEMS_TABLE[0] == 'i';
    assert ACTUAL_TABLE[0] == 'a' && EXPECTED_TABLE[0] == 'e' && UNIQUE_CODE[0] == 'u';
  }

  /** The first iteration of a completed walk: its block is well ordered and the walk goes on after it. */
  lemma BuildStagesFirst(acc: seq<TransformConfig>, m2: map<string, ParamMap>, info: JobExecutionInfo, env: CompileEnv, md5: Md5, ps: seq<BaseJobParameter>)
    returns (step: StepResult)
    requires ps != [] && BuildStages(acc, m2, info, env, md5, ps).ok
    ensures WellOrderedBlock(step.stages)
    ensures var key := MetricUniqueKey(ps[0], info.id, md5);
      && key.Some? && key.value in m2
      && BuildStages(acc, m2, info, env, md5, ps) == BuildStages(acc + step.stages, m2[key.value := step.ctx], info, env, md5, ps[1..])
      && StepAt(info, env, md5, ps[0], step.stages, m2, m2[key.value := step.ctx])
  {
    var key := MetricUniqueKey(ps[0], info.id, md5).value;
    var metric := env.metricPlugins(ps[0].metricType).value;
    var ev := env.expectedPlugins(ExpectedPluginKey(info.engineType, ps[0].expectedType));
    step := MetricStep(m2[key], metric, ev, env);
    MetricStepOutcome(m2[key], metric, ev, env);
  }

  /** `s` is `acc` followed by `n` well-ordered blocks `bs`. */
  predicate IsBlocking(s: seq<TransformConfig>, acc: seq<TransformConfig>, bs: seq<seq<TransformConfig>>, n: nat) {
    |bs| == n && s == acc + Flatten(bs) && forall i :: 0 <= i < |bs| ==> WellOrderedBlock(bs[i])
  }

  /**
   * The walk visited the metrics `ps` in order from the contexts `m2`: block
   * `bs[i]` is the stage list of metric `ps[i]`'s iteration, run on the
   * context `ms[i]` holds under its unique key, and `ms[i + 1]` is `ms[i]`
   * with that context replaced by the iteration's.
   */
  predicate IsTrace(m2: map<string, ParamMap>, info: JobExecutionInfo, env: CompileEnv, md5: Md5, ps: seq<BaseJobParameter>,
                    bs: seq<seq<TransformConfig>>, ms: seq<map<string, ParamMap>>) {
    && |bs| == |ps| && |ms| == |ps| + 1 && ms[0] == m2
    && forall i :: 0 <= i < |ps| ==> StepAt(info, env, md5, ps[i], bs[i], ms[i], ms[i + 1])
  }

  /** One iteration for metric `p`: from contexts `m` it emits `b` and leaves contexts `m'`. */
  predicate StepAt(info: JobExecutionInfo, env: CompileEnv, md5: Md5, p: BaseJobParameter,
                   b: seq<TransformConfig>, m: map<string, ParamMap>, m': map<string, ParamMap>) {
    var key := MetricUniqueKey(p, info.id, md5);
    var metric := env.metricPlugins(p.metricType);
    var ev := env.expectedPlugins(ExpectedPluginKey(info.engineType, p.expectedType));
    && key.Some? && key.value in m && metric.Some?
    && var step := MetricStep(m[key.value], metric.value, ev, env);
       && step.ok && b == step.stages && m' == m[key.value := step.ctx]
  }

  /**
   * A completed walk emits, after `acc`, one well-ordered block per metric, in
   * input order: block `i` is the stage list of metric `ps[i]`'s iteration,
   * and the final contexts are those the last iteration leaves.
   */
  lemma BuildStagesBlocks(acc: seq<TransformConfig>, m2: map<string, ParamMap>, info: JobExecutionInfo, env: CompileEnv, md5: Md5, ps: seq<BaseJobParameter>)
    requires BuildStages(acc, m2, info, env, md5, ps).ok
    ensures exists bs, ms ::
      && IsBlocking(BuildStages(acc, m2, info, env, md5, ps).stages, acc, bs, |ps|)
      && IsTrace(m2, info, env, md5, ps, bs, ms)
      && BuildStages(acc, m2, info, env, md5, ps).contexts == ms[|ps|]
  {
    var bs, ms := BuildStagesTrace(acc, m2, info, env, md5, ps);
    WalkedTrace(m2, info, env, md5, ps, bs, ms);
    TraceBlocksWellOrdered(m2, info, env, md5, ps, bs, ms);
  }

  /**
   * `IsTrace`, one metric at a time: the first iteration runs from `m2`, and
   * the rest of the walk from the contexts it leaves.
   */
  predicate Walked(m2: map<string, ParamMap>, info: JobExecutionInfo, env: CompileEnv, md5: Md5, ps: seq<BaseJobParameter>,
                   bs: seq<seq<TransformConfig>>, ms: seq<map<string, ParamMap>>)
    decreases |ps|
  {
    if ps == [] then bs == [] && ms == [m2]
    else
      && |bs| == |ps| && |ms| == |ps| + 1 && ms[0] == m2
      && StepAt(info, env, md5, ps[0], bs[0], m2, ms[1])
      && Walked(ms[1], info, env, md5, ps[1..], bs[1..], ms[1..])
  }

  /** The blocks and the contexts between them of a completed walk. */
  lemma {:induction false} BuildStagesTrace(acc: seq<TransformConfig>, m2: map<string, ParamMap>, info: JobExecutionInfo, env: CompileEnv, md5: Md5, ps: seq<BaseJobParameter>)
    returns (bs: seq<seq<TransformConfig>>, ms: seq<map<string, ParamMap>>)
    requires BuildStages(acc, m2, info, env, md5, ps).ok
    ensures Walked(m2, info, env, md5, ps, bs, ms)
    ensures BuildStages(acc, m2, info, env, md5, ps).stages == acc + Flatten(bs)
    ensures BuildStages(acc, m2, info, env, md5, ps).contexts == ms[|ps|]
    decreases |ps|
  {
    if ps == [] {
      bs, ms := [], [m2];
      assert acc + Flatten(bs) == acc;
    } else {
      var step := BuildStagesFirst(acc, m2, info, env, md5, ps);
      var key := MetricUniqueKey(ps[0], info.id, md5).value;
      var m3 := m2[key := step.ctx];
      var bs', ms' := BuildStagesTrace(acc + step.stages, m3, info, env, md5, ps[1..]);
      FlattenCons(acc, step.stages, bs');
      bs, ms := [step.stages] + bs', [m2] + ms';
      assert bs[1..] == bs' && ms[1..] == ms';
      assert ms[|ps|] == ms'[|ps| - 1];
    }
  }

  /** A walk, read metric by metric. */
  lemma {:induction false} WalkedTrace(m2: map<string, ParamMap>, info: JobExecutionInfo, env: CompileEnv, md5: Md5, ps: seq<BaseJobParameter>,
                                       bs: seq<seq<TransformConfig>>, ms: seq<map<string, ParamMap>>)
    requires Walked(m2, info, env, md5, ps, bs, ms)
    ensures IsTrace(m2, info, env, md5, ps, bs, ms)
    decreases |ps|
  {
    if ps != [] {
      WalkedTrace(ms[1], info, env, md5, ps[1..], bs[1..], ms[1..]);
      TraceCons(m2, info, env, md5, ps, bs[0], ms[1], bs[1..], ms[1..]);
      assert [bs[0]] + bs[1..] == bs && [m2] + ms[1..] == ms;
    }
  }

  lemma FlattenCons(acc: seq<TransformConfig>, b: seq<TransformConfig>, bs: seq<seq<TransformConfig>>)
    ensures acc + b + Flatten(bs) == acc + Flatten([b] + bs)
  {
    assert ([b] + bs)[1..] == bs;
  }

  /** Every block of a trace is a completed iteration's, so it is well ordered. */
  lemma TraceBlocksWellOrdered(m2: map<string, ParamMap>, info: JobExecutionInfo, env: CompileEnv, md5: Md5, ps: seq<BaseJobParameter>,
                               bs: seq<seq<TransformConfig>>, ms: seq<map<string, ParamMap>>)
    requires IsTrace(m2, info, env, md5, ps, bs, ms)
    ensures forall i :: 0 <= i < |bs| ==> WellOrderedBlock(bs[i])
  {
    forall i | 0 <= i < |bs| ensures WellOrderedBlock(bs[i]) {
      assert StepAt(info, env, md5, ps[i], bs[i], ms[i], ms[i + 1]);
      var key := MetricUniqueKey(ps[i], info.id, md5).value;
      StepBlock(ms[i][key], env.metricPlugins(ps[i].metricType).value,
                env.expectedPlugins(ExpectedPluginKey(info.engineType, ps[i].expectedType)), env, bs[i]);
    }
  }

  lemma StepBlock(ctx: ParamMap, metric: SqlMetric, ev: Option<ExpectedValue>, env: CompileEnv, b: seq<TransformConfig>)
    requires MetricStep(ctx, metric, ev, env).ok && b == MetricStep(ctx, metric, ev, env).stages
    ensures WellOrderedBlock(b)
  {
    MetricStepBlock(ctx, metric, ev, env);
  }

  lemma TraceCons(m2: map<string, ParamMap>, info: JobExecutionInfo, env: CompileEnv, md5: Md5, ps: seq<BaseJobParameter>,
                  b: seq<TransformConfig>, m3: map<string, ParamMap>, bs: seq<seq<TransformConfig>>, ms: seq<map<string, ParamMap>>)
    requires ps != [] && StepAt(info, env, md5, ps[0], b, m2, m3)
    requires IsTrace(m3, info, env, md5, ps[1..], bs, ms)
    ensures IsTrace(m2, info, env, md5, ps, [b] + bs, [m2] + ms)
  {
    var bs1 := [b] + bs;
    var ms1 := [m2] + ms;
    forall i | 0 <= i < |ps| ensures StepAt(info, env, md5, ps[i], bs1[i], ms1[i], ms1[i + 1]) {
      if i > 0 {
        assert ps[i] == ps[1..][i - 1] && bs1[i] == bs[i - 1] && ms1[i] == ms[i - 1] && ms1[i + 1] == ms[i];
      }
    }
  }

  /** The number of expected-value stages. */
  function CountExpected(s: seq<TransformConfig>): nat {
    if s == [] then 0 else (if IsExpectedStage(s[0].kind) then 1 else 0) + CountExpected(s[1..])
  }

  lemma {:induction false} CountExpectedAppend(a: seq<TransformConfig>, b: seq<TransformConfig>)
    ensures CountExpected(a + b) == CountExpected(a) + CountExpected(b)
    decreases |a|
  {
    if a == [] {
      assert a + b == b;
    } else {
      assert (a + b)[0] == a[0];
      assert (a + b)[1..] == a[1..] + b;
      CountExpectedAppend(a[1..], b);
    }
  }

  /** Well-ordered blocks hold exactly one expected-value stage each. */
  lemma {:induction false} CountExpectedBlocks(bs: seq<seq<TransformConfig>>)
    requires forall i :: 0 <= i < |bs| ==> WellOrderedBlock(bs[i])
    ensures CountExpected(Flatten(bs)) == |bs|
    decreases |bs|
  {
    if bs != [] {
      var b := bs[0];
      assert WellOrderedBlock(b);
      assert CountExpected(b) == 1 by {
        if |b| == 1 {
          assert CountExpected(b[1..]) == 0;
        } else if |b| == 2 {
          assert b[1..][1..] == [];
          assert CountExpected(b[1..]) == 1;
        } else {
          assert b[1..][1..][1..] == [];
          assert CountExpected(b[1..][1..]) == 1;
          assert CountExpected(b[1..]) == 1;
        }
      }
      CountExpectedAppend(b, Flatten(bs[1..]));
      forall i | 0 <= i < |bs[1..]| ensures WellOrderedBlock(bs[1..][i]) { assert bs[1..][i] == bs[i + 1]; }
      CountExpectedBlocks(bs[1..]);
    }
  }

  /** A completed walk from nothing emits exactly one expected-value stage per metric. */
  lemma OneExpectedStagePerMetric(m2: map<string, ParamMap>, info: JobExecutionInfo, env: CompileEnv, md5: Md5, ps: seq<BaseJobParameter>)
    requires BuildStages([], m2, info, env, md5, ps).ok
    ensures CountExpected(BuildStages([], m2, info, env, md5, ps).stages) == |ps|
  {
    var bs, ms := BuildStagesTrace([], m2, info, env, md5, ps);
    WalkedTrace(m2, info, env, md5, ps, bs, ms);
    TraceBlocksWellOrdered(m2, info, env, md5, ps, bs, ms);
    CountExpectedBlocks(bs);
    assert [] + Flatten(bs) == Flatten(bs);
  }

  /** True when every metric's plugin and expected-value plugin are registered. */
  predicate PluginsRegistered(info: JobExecutionInfo, env: CompileEnv, ps: seq<BaseJobParameter>) {
    forall i :: 0 <= i < |ps| ==>
      env.metricPlugins(ps[i].metricType).Some?
      && env.expectedPlugins(ExpectedPluginKey(info.engineType, ps[i].expectedType)).Some?
  }

  /** The walk completes exactly when every metric has a context and registered plugins. */
  lemma {:induction false} BuildStagesCompletes(acc: seq<TransformConfig>, m2: map<string, ParamMap>, info: JobExecutionInfo, env: CompileEnv, md5: Md5, ps: seq<BaseJobParameter>)
    requires AllHaveParameters(ps)
    requires forall i :: 0 <= i < |ps| ==> MetricUniqueKey(ps[i], info.id, md5).value in m2
    ensures BuildStages(acc, m2, info, env, md5, ps).ok <==> PluginsRegistered(info, env, ps)
    decreases |ps|
  {
    if ps != [] {
      var key := MetricUniqueKey(ps[0], info.id, md5).value;
      var rest := ps[1..];
      PluginsRegisteredCons(info, env, ps);
      if env.metricPlugins(ps[0].metricType).Some? && env.expectedPlugins(ExpectedPluginKey(info.engineType, ps[0].expectedType)).Some? {
        var step := BuildStagesHead(acc, m2, info, env, md5, ps);
        forall i | 0 <= i < |rest| ensures rest[i].metricParameter.Some? && MetricUniqueKey(rest[i], info.id, md5).value in m2[key := step.ctx] {
          assert rest[i] == ps[i + 1];
        }
        BuildStagesCompletes(acc + step.stages, m2[key := step.ctx], info, env, md5, rest);
      }
    }
  }

  /** A metric whose plugins are registered completes its iteration and the walk goes on. */
  lemma BuildStagesHead(acc: seq<TransformConfig>, m2: map<string, ParamMap>, info: JobExecutionInfo, env: CompileEnv, md5: Md5, ps: seq<BaseJobParameter>)
    returns (step: StepResult)
    requires ps != [] && ps[0].metricParameter.Some?
    requires MetricUniqueKey(ps[0], info.id, md5).value in m2
    requires env.metricPlugins(ps[0].metricType).Some?
    requires env.expectedPlugins(ExpectedPluginKey(info.engineType, ps[0].expectedType)).Some?
    ensures BuildStages(acc, m2, info, env, md5, ps)
      == BuildStages(acc + step.stages, m2[MetricUniqueKey(ps[0], info.id, md5).value := step.ctx], info, env, md5, ps[1..])
  {
    var key := MetricUniqueKey(ps[0], info.id, md5).value;
    var metric := env.metricPlugins(ps[0].metricType).value;
    var ev := env.expectedPlugins(ExpectedPluginKey(info.engineType, ps[0].expectedType));
    step := MetricStep(m2[key], metric, ev, env);
    assert step.ok;
  }

  lemma PluginsRegisteredCons(info: JobExecutionInfo, env: CompileEnv, ps: seq<BaseJobParameter>)
    requires ps != []
    ensures PluginsRegistered(info, env, ps) <==>
      && env.metricPlugins(ps[0].metricType).Some?
      && env.expectedPlugins(ExpectedPluginKey(info.engineType, ps[0].expectedType)).Some?
      && PluginsRegistered(info, env, ps[1..])
  {
    if PluginsRegistered(info, env, ps) {
      forall i | 0 <= i < |ps[1..]| ensures env.metricPlugins(ps[1..][i].metricType).Some?
        && env.expectedPlugins(ExpectedPluginKey(info.engineType, ps[1..][i].expectedType)).Some? {
        assert ps[1..][i] == ps[i + 1];
      }
    }
    if PluginsRegistered(info, env, ps[1..]) {
      forall i | 1 <= i < |ps| ensures env.metricPlugins(ps[i].metricType).Some?
        && env.expectedPlugins(ExpectedPluginKey(info.engineType, ps[i].expectedType)).Some? {
        assert ps[i] == ps[1..][i - 1];
      }
    }
  }

  // ---------------------------------------------------------------------
  // Validate-result source and sink configuration

  /** True when the storage factory exists and a storage parameter is given. */
  predicate UsesStorageParameter(info: JobExecutionInfo, reg: FactoryRegistry) {
    reg(info.validateResultDataStorageType).Some? && !IsEmpty(info.validateResultDataStorageParameter)
  }

  /**
   * The 3-argument `getValidateResultSourceConfigMap`: the converted storage
   * parameters with the driver (when the factory exists and a parameter is
   * given), then `table`, `output_table` and, when non-empty, `sql`.
   */
  function ValidateResultSourceConfigMapTo(info: JobExecutionInfo, reg: FactoryRegistry, sql: Option<string>, dbTable: Option<string>, outputTable: Option<string>): (r: map<string, JValue>)
    ensures TABLE in r && r[TABLE] == AsValue(dbTable)
    ensures OUTPUT_TABLE in r && r[OUTPUT_TABLE] == AsValue(outputTable)
    ensures !IsEmpty(sql) ==> SQL in r && r[SQL] == AsValue(sql)
    ensures DRIVER in r <==> UsesStorageParameter(info, reg)
    ensures DRIVER in r ==> r[DRIVER] == JText(reg(info.validateResultDataStorageType).value.driver)
    ensures !UsesStorageParameter(info, reg) ==> r.Keys == {TABLE, OUTPUT_TABLE} + (if IsEmpty(sql) then {} else {SQL})
    ensures UsesStorageParameter(info, reg) ==>
      var converted := reg(info.validateResultDataStorageType).value.convertParameter(info.validateResultDataStorageParameter.value);
      && (forall k :: k in converted && k !in {DRIVER, TABLE, OUTPUT_TABLE, SQL} ==> k in r && r[k] == converted[k])
      && r.Keys == converted.Keys + {DRIVER, TABLE, OUTPUT_TABLE} + (if IsEmpty(sql) then {} else {SQL})
  {
    var f := reg(info.validateResultDataStorageType);
    var m0 := if UsesStorageParameter(info, reg)
      then f.value.convertParameter(info.validateResultDataStorageParameter.value)[DRIVER := JText(f.value.driver)]
      else map[];
    var m1 := m0[TABLE := AsValue(dbTable)][OUTPUT_TABLE := AsValue(outputTable)];
    if !IsEmpty(sql) then m1[SQL := AsValue(sql)] else m1
  }

  /** The 2-argument `getValidateResultSourceConfigMap`: identical, with `output_table` = `dbTable`. */
  function ValidateResultSourceConfigMap(info: JobExecutionInfo, reg: FactoryRegistry, sql: Option<string>, dbTable: Option<string>): (r: map<string, JValue>)
    ensures TABLE in r && r[TABLE] == AsValue(dbTable)
    ensures OUTPUT_TABLE in r && r[OUTPUT_TABLE] == AsValue(dbTable)
    ensures !IsEmpty(sql) ==> SQL in r && r[SQL] == AsValue(sql)
    ensures DRIVER in r <==> UsesStorageParameter(info, reg)
    ensures r == ValidateResultSourceConfigMapTo(info, reg, sql, dbTable, dbTable)
  {
    ValidateResultSourceConfigMapTo(info, reg, sql, dbTable, dbTable)
  }

  const ACTUAL_VALUES_TABLE := "dv_actual_values"

  /**
   * `getValidateResultDataSourceConfig()` and its `outputTable` overload: a
   * METADATA source over `dv_actual_values`; a missing storage factory fails
   * (NullPointerException on its category).
   */
  function ValidateResultDataSourceConfig(info: JobExecutionInfo, reg: FactoryRegistry, outputTable: Option<Option<string>>): (r: Option<SourceConfig>)
    ensures r.Some? <==> reg(info.validateResultDataStorageType).Some?
    ensures r.Some? ==>
      && r.value.plugin == reg(info.validateResultDataStorageType).value.category
      && r.value.sourceType == Metadata
      && TABLE in r.value.config && r.value.config[TABLE] == JText(ACTUAL_VALUES_TABLE)
      && OUTPUT_TABLE in r.value.config && r.value.config[OUTPUT_TABLE] == (if outputTable.Some? then AsValue(outputTable.value) else JText(ACTUAL_VALUES_TABLE))
      && r.value.config == ValidateResultSourceConfigMapTo(info, reg, None, Some(ACTUAL_VALUES_TABLE),
                                                           if outputTable.Some? then outputTable.value else Some(ACTUAL_VALUES_TABLE))
  {
    var f := reg(info.validateResultDataStorageType);
    if f.None? then None
    else
      var config := if outputTable.Some?
        then ValidateResultSourceConfigMapTo(info, reg, None, Some(ACTUAL_VALUES_TABLE), outputTable.value)
        else ValidateResultSourceConfigMap(info, reg, None, Some(ACTUAL_VALUES_TABLE));
      Some(SourceConfig(f.value.category, Metadata, config))
  }

  /** The keys the sink adds differ from `sql` and `driver`. */
  lemma SinkKeysDistinct()
    ensures SQL !in {JOB_EXECUTION_ID, INVALIDATE_ITEMS_TABLE, METRIC_UNIQUE_KEY, EXPECTED_VALUE}
    ensures DRIVER !in {JOB_EXECUTION_ID, INVALIDATE_ITEMS_TABLE, METRIC_UNIQUE_KEY, EXPECTED_VALUE}
  {
    assert SQL[0] == 's' && DRIVER[0] == 'd' && JOB_EXECUTION_ID[0] == 'j';
    assert INVALIDATE_ITEMS_TABLE[0] == 'i' && METRIC_UNIQUE_KEY[0] == 'm' && EXPECTED_VALUE[0] == 'e';
  }

  /** `ParameterUtils.convertParameterPlaceholders`. */
  type Renderer = (Option<string>, ParamMap) -> Option<string>

  /**
   * `getValidateResultDataSinkConfig`: the source config map over the
   * rendered SQL plus the job execution id, the invalidate-items table and
   * the unique key; a non-empty literal key of the expected-value plugin is
   * also written into the caller's context under `expected_value`, and the
   * sink's `expected_value` is read back from that updated context.
   */
  function ValidateResultDataSinkConfig(info: JobExecutionInfo, reg: FactoryRegistry, render: Renderer, ev: Option<ExpectedValue>, sql: Option<string>, dbTable: Option<string>, ctx: ParamMap): (r: (SinkConfig, ParamMap))
    ensures r.0.plugin == info.validateResultDataStorageType
    ensures JOB_EXECUTION_ID in r.0.config && r.0.config[JOB_EXECUTION_ID] == JInt(info.id)
    ensures INVALIDATE_ITEMS_TABLE in r.0.config && r.0.config[INVALIDATE_ITEMS_TABLE] == AsValue(Get(ctx, INVALIDATE_ITEMS_TABLE))
    ensures METRIC_UNIQUE_KEY in r.0.config && r.0.config[METRIC_UNIQUE_KEY] == AsValue(Get(ctx, METRIC_UNIQUE_KEY))
    ensures TABLE in r.0.config && r.0.config[TABLE] == AsValue(dbTable)
    ensures OUTPUT_TABLE in r.0.config && r.0.config[OUTPUT_TABLE] == AsValue(dbTable)
    ensures !IsEmpty(render(sql, ctx)) ==> SQL in r.0.config && r.0.config[SQL] == AsValue(render(sql, ctx))
    ensures DRIVER in r.0.config <==> UsesStorageParameter(info, reg)
    ensures var lit := ev.Some? && !IsEmpty(ev.value.key(ctx));
      && (lit ==> r.1 == ctx[EXPECTED_VALUE := ev.value.key(ctx)]
                  && EXPECTED_VALUE in r.0.config && r.0.config[EXPECTED_VALUE] == AsValue(ev.value.key(r.1)))
      && (!lit ==> r.1 == ctx)
    ensures var lit := ev.Some? && !IsEmpty(ev.value.key(ctx));
      var base := ValidateResultSourceConfigMap(info, reg, render(sql, ctx), dbTable);
      var added := {JOB_EXECUTION_ID, INVALIDATE_ITEMS_TABLE, METRIC_UNIQUE_KEY} + (if lit then {EXPECTED_VALUE} else {});
      && r.0.config.Keys == base.Keys + added
      && (forall k :: k in base && k !in added ==> r.0.config[k] == base[k])
  {
    SinkKeysDistinct();
    var config := ValidateResultSourceConfigMap(info, reg, render(sql, ctx), dbTable)
      [JOB_EXECUTION_ID := JInt(info.id)]
      [INVALIDATE_ITEMS_TABLE := AsValue(Get(ctx, INVALIDATE_ITEMS_TABLE))]
      [METRIC_UNIQUE_KEY := AsValue(Get(ctx, METRIC_UNIQUE_KEY))];
    if ev.Some? && !IsEmpty(ev.value.key(ctx)) then
      var ctx' := ctx[EXPECTED_VALUE := ev.value.key(ctx)];
      (SinkConfig(info.validateResultDataStorageType, config[EXPECTED_VALUE := AsValue(ev.value.key(ctx'))]), ctx')
    else
      (SinkConfig(info.validateResultDataStorageType, config), ctx)
  }

  // ---------------------------------------------------------------------
  // The builder

  /** `forEach((k, v) -> m.put(k, String.valueOf(v)))`. */
  method PutEach(m: ParamMap, es: seq<(string, JValue)>) returns (r: ParamMap)
    ensures r == PutAll(m, es)
  {
    r := m;
    var i := 0;
    while i < |es|
      invariant 0 <= i <= |es|
      invariant PutAll(r, es[i..]) == PutAll(m, es)
    {
      assert es[i..][1..] == es[i + 1..];
      r := r[es[i].0 := Some(Show(es[i].1))];
      i := i + 1;
    }
  }

  /** The expected-parameter `forEach` with its literal-expected-value rule. */
  method PutEachExpected(m: ParamMap, es: seq<(string, JValue)>, evKey: string) returns (r: ParamMap)
    ensures r == PutExpected(m, es, evKey)
  {
    r := m;
    var i := 0;
    while i < |es|
      invariant 0 <= i <= |es|
      invariant PutExpected(r, es[i..], evKey) == PutExpected(m, es, evKey)
    {
      assert es[i..][1..] == es[i + 1..];
      var (k, v) := es[i];
      if k == EXPECTED_VALUE && v != JNull {
        r := r[evKey := Some(Show(v))];
        r := r - {EXPECTED_VALUE};
      }
      r := r[k := Some(Show(v))];
      i := i + 1;
    }
  }

  /** The base-context part of `init`: the calendar placeholders, the column, and the output locations. */
  method NewBaseContext(input: ParamMap, info: JobExecutionInfo, cal: Calendar, props: CommonProperties, toMap: JsonToMap) returns (m: ParamMap)
    ensures m == BaseContext(input, info, cal, props, toMap)
  {
    m := input;
    m := m[WEEK_START_DAY := Some(cal.weekStart)];
    m := m[WEEK_END_DAY := Some(cal.weekEnd)];
    m := m[MONTH_START_DAY := Some(cal.monthStart)];
    m := m[MONTH_END_DAY := Some(cal.monthEnd)];
    m := m[DAY_START_TIME := Some(cal.dayStart)];
    m := m[DAY_END_TIME := Some(cal.dayEnd)];
    m := m[DAY_AFTER_7_END_TIME := Some(cal.dayAfter7End)];
    m := m[DAY_AFTER_30_END_TIME := Some(cal.dayAfter30End)];
    m := m[COLUMN := Some("")];
    m := m[ERROR_DATA_FILE_NAME := info.errorDataFileName];
    ghost var m0 := m;

    if EqualsIgnoreCase(FILE, info.errorDataStorageType) {
      var sp := toMap(info.errorDataStorageParameter);
      m := m[ERROR_DATA_DIR := GetStr(sp, DATA_DIR)];
      m := m[COLUMN_SEPARATOR := Some(OrDefault(sp, PROPERTY_COLUMN_SEPARATOR, props.columnSeparatorDefault))];
      m := m[LINE_SEPARATOR := Some(OrDefault(sp, PROPERTY_LINE_SEPARATOR, props.lineSeparatorDefault))];
    } else {
      m := m[ERROR_DATA_DIR := Some(GetString(props, PROPERTY_ERROR_DATA_DIR, props.errorDataDirDefault))];
      m := m[COLUMN_SEPARATOR := Some(GetString(props, PROPERTY_COLUMN_SEPARATOR, props.columnSeparatorDefault))];
      m := m[LINE_SEPARATOR := Some(GetString(props, PROPERTY_LINE_SEPARATOR, props.lineSeparatorDefault))];
    }
    assert m == ErrorOutputContext(m0, info, props, toMap);
    ghost var m1 := m;

    if EqualsIgnoreCase(FILE, info.validateResultDataStorageType) {
      var vp := toMap(info.validateResultDataStorageParameter);
      m := m[VALIDATE_RESULT_DATA_DIR := GetStr(vp, DATA_DIR)];
    } else {
      m := m[VALIDATE_RESULT_DATA_DIR := Some(GetString(props, PROPERTY_VALIDATE_RESULT_DATA_DIR, props.validateResultDataDirDefault))];
    }
    assert m == ValidateResultContext(m1, info, props, toMap);
  }

  /** The body of `init`'s metric loop: copy the base map and overlay the metric's parameters. */
  method NewMetricContext(base: ParamMap, key: string, p: BaseJobParameter, mp: Entries, engineType: Option<string>) returns (m: ParamMap)
    ensures m == MetricContext(base, key, p, mp, engineType)
  {
    m := base;
    m := m[METRIC_UNIQUE_KEY := Some(key)];
    m := m[ExpectedValueKey(key) := None];
    m := PutEach(m, mp);
    if p.expectedParameter.Some? {
      m := PutEachExpected(m, p.expectedParameter.value, ExpectedValueKey(key));
    }
    m := m[RESULT_FORMULA := Some(Show(p.resultFormula))];
    m := m[OPERATOR := Some(Show(p.operator))];
    m := m[THRESHOLD := Some(Show(p.threshold))];
    m := m[EXPECTED_TYPE := Some(Quote(p.expectedType))];
    m := m[INVALIDATE_ITEM_CAN_OUTPUT := Some(BoolToString(true))];
    m := m[ENGINE_TYPE := engineType];
  }

  /**
   * One iteration of `buildTransformConfigs`: looks up the metric's context
   * and plugins and builds its stages; `visited` is false where the source
   * throws or returns early.
   */
  method VisitMetric(acc: seq<TransformConfig>, m2: map<string, ParamMap>, info: JobExecutionInfo, env: CompileEnv, md5: Md5, ps: seq<BaseJobParameter>)
    returns (stages: seq<TransformConfig>, contexts: map<string, ParamMap>, visited: bool)
    requires ps != []
    ensures visited ==> BuildStages(acc, m2, info, env, md5, ps) == BuildStages(acc + stages, contexts, info, env, md5, ps[1..])
    ensures !visited ==> BuildStages(acc, m2, info, env, md5, ps) == FoldResult(acc, contexts, false)
  {
    var p := ps[0];
    var key := MetricUniqueKey(p, info.id, md5);
    if key.None? || key.value !in m2 {
      return [], m2, false;
    }
    var metricInputParameter := m2[key.value];
    var sqlMetric := env.metricPlugins(p.metricType);
    if sqlMetric.None? {
      return [], m2, false;
    }
    var expectedValue := env.expectedPlugins(ExpectedPluginKey(info.engineType, p.expectedType));
    var step := MetricStep(metricInputParameter, sqlMetric.value, expectedValue, env);
    return step.stages, m2[key.value := step.ctx], step.ok;
  }

  class JobConfigurationBuilder {
    var inputParameter: ParamMap
    var jobExecutionInfo: Option<JobExecutionInfo>
    var metric2InputParameter: map<string, ParamMap>
    /** The plan's transform list (`configuration.transformParameters`), null until built. */
    var transformParameters: Option<seq<TransformConfig>>

    constructor ()
      ensures inputParameter == map[] && jobExecutionInfo.None?
      ensures metric2InputParameter == map[] && transformParameters.None?
    {
      inputParameter := map[];
      jobExecutionInfo := None;
      metric2InputParameter := map[];
      transformParameters := None;
    }

    /**
     * `init`: builds the base context, then one context per metric; a metric
     * without a metric-parameter map stops it (NullPointerException) after
     * the contexts of the metrics before it were stored.
     */
    method Init(input: ParamMap, info: JobExecutionInfo, cal: Calendar, props: CommonProperties, toMap: JsonToMap, md5: Md5) returns (ok: bool)
      modifies this`inputParameter, this`jobExecutionInfo, this`metric2InputParameter
      ensures jobExecutionInfo == Some(info)
      ensures inputParameter == BaseContext(input, info, cal, props, toMap)
      ensures metric2InputParameter == InitContexts(old(metric2InputParameter), inputParameter, info, md5, info.metricParameterList)
      ensures ok <==> AllHaveParameters(info.metricParameterList)
    {
      jobExecutionInfo := Some(info);
      inputParameter := NewBaseContext(input, info, cal, props, toMap);

      var ps := info.metricParameterList;
      var i := 0;
      while i < |ps|
        invariant 0 <= i <= |ps|
        invariant inputParameter == BaseContext(input, info, cal, props, toMap)
        invariant jobExecutionInfo == Some(info)
        invariant forall j :: 0 <= j < i ==> ps[j].metricParameter.Some?
        invariant InitContexts(metric2InputParameter, inputParameter, info, md5, ps[i..])
               == InitContexts(old(metric2InputParameter), inputParameter, info, md5, ps)
      {
        var p := ps[i];
        assert ps[i..][1..] == ps[i + 1..];
        if p.metricParameter.None? {
          return false;
        }
        var key := MetricUniqueKey(p, info.id, md5).value;
        var c := NewMetricContext(inputParameter, key, p, p.metricParameter.value, info.engineType);
        metric2InputParameter := metric2InputParameter[key := c];
        i := i + 1;
      }
      ok := true;
    }

    /**
     * `buildTransformConfigs`: walks the metrics in input order; the plan's
     * transform list is set only when the walk completes over a non-empty list.
     */
    method BuildTransformConfigs(env: CompileEnv, md5: Md5) returns (ok: bool)
      requires jobExecutionInfo.Some?
      modifies this`metric2InputParameter, this`transformParameters
      ensures var ps := jobExecutionInfo.value.metricParameterList;
        var r := BuildStages([], old(metric2InputParameter), jobExecutionInfo.value, env, md5, ps);
        && metric2InputParameter == r.contexts
        && ok == r.ok
        && transformParameters == (if ok && ps != [] then Some(r.stages) else old(transformParameters))
    {
      var info := jobExecutionInfo.value;
      var ps := info.metricParameterList;
      var transformConfigs: seq<TransformConfig> := [];
      var i := 0;
      while i < |ps|
        invariant 0 <= i <= |ps|
        invariant transformParameters == old(transformParameters)
        invariant BuildStages(transformConfigs, metric2InputParameter, info, env, md5, ps[i..])
               == BuildStages([], old(metric2InputParameter), info, env, md5, ps)
      {
        var stages, contexts, visited := VisitMetric(transformConfigs, metric2InputParameter, info, env, md5, ps[i..]);
        assert ps[i..][1..] == ps[i + 1..];
        metric2InputParameter := contexts;
        if !visited {
          return false;
        }
        transformConfigs := transformConfigs + stages;
        i := i + 1;
      }
      if ps != [] {
        transformParameters := Some(transformConfigs);
      }
      ok := true;
    }
  }
}
