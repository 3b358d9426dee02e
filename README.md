# datavines job-plan compiler, modelled in Dafny

This project models the part of datavines that turns a data-quality job into
an execution plan, together with the server-side checks a job passes before
it is saved.

- **Plan builder** (`BaseJobConfigurationBuilder`).
  - `init` builds one job-wide parameter context and one copy-on-write context
    per metric. The job-wide context holds the calendar placeholders, the
    error-output location and the validate-result directory. Each metric's
    context is keyed by the metric's 8-character unique key.
  - `buildTransformConfigs` walks the metrics in input order. It appends each
    metric's transform stages in a fixed order: INVALIDATE_ITEMS (optional),
    then ACTUAL_VALUE (optional), then exactly one EXPECTED_VALUE stage. The
    tables those stages produce are threaded through the metric's context.
  - Helpers build the validate-result source and sink configurations.
- **Job service** (`JobServiceImpl`).
  - Duplicate-metric detection.
  - Fully-qualified entity names (FQNs).
  - Whether a metric suits its column, plus the local-engine rule.
  - The job attributes copied from the first metric.
  - The generated job name and error-file name.
  - The guard on writing error rows back into the checked datasource.
- **A concrete metric**: the standard-deviation metric (`ColumnStdDev`).
- **The Flink dialect's SQL templates** (`FlinkMetricScript`).
- **The JDBC engine's SQL transform stage** (`SqlTransform`): its configuration
  check and its executor dispatch.
- **The Presto JDBC URL** (`PrestoParameterConverter.getUrl`).
- **The ClickHouse type converter** (`ClickHouseTypeConverter.convert`).

How the Java maps to Dafny:

- **Null.** Java `null` is `Option.None`.
- **Exceptions.** A Java exception the code can raise is an `Err`, a
  `Rejected` or `Fail` verdict, a `false` outcome flag, or `None`. Examples are
  the `NullPointerException` of a null metric-parameter map and the
  `ClassCastException` of a non-string value.
- **Parameter bags.** A metric's `Map<String, Object>` parameter bag is a
  sequence of distinct-key entries, so its iteration order is an input.
- **Contexts.** A `Map<String, String>` parameter context is a
  `map<string, Option<string>>`.
- **Plugins.** Plugins (metrics, expected values, connector factories) are
  records of functions. Registries (`PluginLoader`) are functions from a key
  to an optional plugin.
- **External calls are parameters.** This covers MD5, JSON parsing, the
  catalog, `SqlUtils.extractTablesFromSelect`,
  `MetricParserUtils.operateInputParameter`, `generateUniqueCode`,
  `ParameterUtils.convertParameterPlaceholders`, the dialect's
  `stdDevActualValue` and the generic JDBC type converter.
- **The clock.** The formatted calendar strings and the millisecond timestamp
  are inputs.

Modules:

| file | module | models |
|---|---|---|
| common.dfy | `Common` | Option/Result, Java string helpers (`String.valueOf`, `isEmpty`, case, join, split) |
| api.dfy | `Api` | the parameter context, `ExecuteSql`, plugin records, configuration key names |
| job_configuration.dfy | `JobConfiguration` | `BaseJobConfigurationBuilder` as the class `JobConfigurationBuilder` plus specification functions |
| job_service.dfy | `JobService` | the `JobServiceImpl` checks and name formats |
| column_std_dev.dfy | `ColumnStdDev` | the standard-deviation metric |
| flink_metric_script.dfy | `FlinkMetricScript` | the Flink SQL templates |
| sql_transform.dfy | `SqlTransform` | the JDBC SQL transform, as the class `SqlTransform` |
| presto.dfy | `Presto` | the Presto URL |
| clickhouse.dfy | `ClickHouse` | the ClickHouse type conversion |
| pipeline.dfy | `Pipeline` | facts joining the components |

Under the stated assumptions, the model shows the following:

- A completed `buildTransformConfigs` emits exactly one well-ordered block of
  stages per metric, in input order.
- Each stage is configured from a context that already names the tables of
  the stages before it.
- Two metrics are duplicates on the server exactly when their
  `type_db_table_column` texts hash alike. This text is ambiguous:
  `IdentityTextAmbiguous` shows two different tables with the same text.

## Model

| member | source | states |
|---|---|---|
| JobConfiguration.MetricUniqueKey | datavines-engine/datavines-engine-config/src/main/java/io/datavines/engine/config/BaseJobConfigurationBuilder.java:313-320 | the key exists exactly when the metric-parameter map is non-null (a null map is the NullPointerException); it has 8 lower-case hex characters and is a prefix of the MD5 of `type_db_table_column_jobId` |
| JobConfiguration.UniqueKeyDeterminedByIdentity | datavines-engine/datavines-engine-config/src/main/java/io/datavines/engine/config/BaseJobConfigurationBuilder.java:313-320 | two metrics with equal type and equal printed database, table and column get the same key under the same job id |
| JobConfiguration.NewBaseContext | datavines-engine/datavines-engine-config/src/main/java/io/datavines/engine/config/BaseJobConfigurationBuilder.java:59-95 | the sequence of puts `init` makes on the job-wide context yields the base context `BaseContext` |
| JobConfiguration.BaseContextKeys | datavines-engine/datavines-engine-config/src/main/java/io/datavines/engine/config/BaseJobConfigurationBuilder.java:59-95 | the base context holds exactly the caller's keys plus the 14 keys `init` writes |
| JobConfiguration.BaseContextKeepsInput | datavines-engine/datavines-engine-config/src/main/java/io/datavines/engine/config/BaseJobConfigurationBuilder.java:59-95 | a caller's entry under a key `init` does not write keeps its value |
| JobConfiguration.BaseContextCalendar | datavines-engine/datavines-engine-config/src/main/java/io/datavines/engine/config/BaseJobConfigurationBuilder.java:60-68 | every week, month and day placeholder holds its calendar string in the final base context (no later put overwrites it) |
| JobConfiguration.BaseContextColumn | datavines-engine/datavines-engine-config/src/main/java/io/datavines/engine/config/BaseJobConfigurationBuilder.java:69-73 | the base context holds `column = ""` and the job's error-file name |
| JobConfiguration.OutputContextsKeep | datavines-engine/datavines-engine-config/src/main/java/io/datavines/engine/config/BaseJobConfigurationBuilder.java:75-95 | the output-location step adds exactly its four keys and leaves every other key alone |
| JobConfiguration.ErrorOutputLocation | datavines-engine/datavines-engine-config/src/main/java/io/datavines/engine/config/BaseJobConfigurationBuilder.java:75-95 | storage type `file` in any letter case: directory from the storage parameters, each separator from them or its default only when absent; any other type: all three from global configuration with defaults; the validate-result directory follows the same rule for its own storage type |
| JobConfiguration.PutEach | datavines-engine/datavines-engine-config/src/main/java/io/datavines/engine/config/BaseJobConfigurationBuilder.java:104-108 | the metric-parameter `forEach` loop yields `PutAll` |
| JobConfiguration.PutAllValues | datavines-engine/datavines-engine-config/src/main/java/io/datavines/engine/config/BaseJobConfigurationBuilder.java:104-108 | each metric parameter lands as `String.valueOf(v)`; keys the bag does not name keep their values |
| JobConfiguration.PutEachExpected | datavines-engine/datavines-engine-config/src/main/java/io/datavines/engine/config/BaseJobConfigurationBuilder.java:110-118 | the expected-parameter `forEach` loop, with its literal-expected-value rule, yields `PutExpected` |
| JobConfiguration.PutExpectedKeys | datavines-engine/datavines-engine-config/src/main/java/io/datavines/engine/config/BaseJobConfigurationBuilder.java:110-118 | the expected bag adds its own keys and, exactly when it holds a non-null `expected_value`, the key `expected_value_<key>`; the removal of `expected_value` never takes a key away |
| JobConfiguration.PutExpectedValues | datavines-engine/datavines-engine-config/src/main/java/io/datavines/engine/config/BaseJobConfigurationBuilder.java:110-118 | every expected parameter (including `expected_value`, removed then re-put) ends up as `String.valueOf(v)`; keys the bag does not name keep their values |
| JobConfiguration.PutExpectedLiteral | datavines-engine/datavines-engine-config/src/main/java/io/datavines/engine/config/BaseJobConfigurationBuilder.java:110-118 | `expected_value_<key>` receives the literal expected value exactly when the bag gives a non-null one, and is otherwise untouched |
| JobConfiguration.NewMetricContext | datavines-engine/datavines-engine-config/src/main/java/io/datavines/engine/config/BaseJobConfigurationBuilder.java:100-125 | the body of `init`'s metric loop yields the per-metric context `MetricContext` |
| JobConfiguration.MetricContextKeys | datavines-engine/datavines-engine-config/src/main/java/io/datavines/engine/config/BaseJobConfigurationBuilder.java:101-125 | the per-metric context holds exactly the base keys, `metric_unique_key`, `expected_value_<key>`, every metric and expected parameter key and the six keys written last |
| JobConfiguration.MetricContextKeepsBase | datavines-engine/datavines-engine-config/src/main/java/io/datavines/engine/config/BaseJobConfigurationBuilder.java:101-102 | a copy of the base map: base entries no bag overrides keep their values, and `metric_unique_key` holds the key |
| JobConfiguration.MetricContextParameters | datavines-engine/datavines-engine-config/src/main/java/io/datavines/engine/config/BaseJobConfigurationBuilder.java:104-118 | every metric and expected parameter appears as `String.valueOf(v)`, an expected parameter winning over a metric parameter, unless a final key or `expected_value_<key>` overrides it |
| JobConfiguration.MetricContextExpectedValue | datavines-engine/datavines-engine-config/src/main/java/io/datavines/engine/config/BaseJobConfigurationBuilder.java:103-118 | when neither parameter bag names `expected_value_<key>` itself, that key is present; it holds the literal expected value when a non-null one is given and null otherwise |
| JobConfiguration.MetricContextFinalValues | datavines-engine/datavines-engine-config/src/main/java/io/datavines/engine/config/BaseJobConfigurationBuilder.java:120-125 | result formula, operator and threshold as `String.valueOf`, the expected type in single quotes, `invalidate_item_can_output = "true"` and the engine type, whatever the bags hold |
| JobConfiguration.InitContextsCoverMetrics | datavines-engine/datavines-engine-config/src/main/java/io/datavines/engine/config/BaseJobConfigurationBuilder.java:97-128 | after the loop every metric has a context under its unique key, and earlier entries stay |
| JobConfiguration.InitContextsPerMetric | datavines-engine/datavines-engine-config/src/main/java/io/datavines/engine/config/BaseJobConfigurationBuilder.java:97-128 | with distinct unique keys, each metric's stored context is built from that metric and the base context alone |
| JobConfiguration.JobConfigurationBuilder.Init | datavines-engine/datavines-engine-config/src/main/java/io/datavines/engine/config/BaseJobConfigurationBuilder.java:58-129 | the builder's base context is `BaseContext` (the metric loop never changes it); the per-metric contexts are `InitContexts`; the loop stops at the first null metric-parameter map after the contexts before it were stored |
| JobConfiguration.ExpectedStageType | datavines-engine/datavines-engine-config/src/main/java/io/datavines/engine/config/BaseJobConfigurationBuilder.java:203-209 | EXPECTED_VALUE_FROM_METADATA_SOURCE exactly when the plugin needs the default datasource, EXPECTED_VALUE_FROM_SOURCE exactly when it does not |
| JobConfiguration.MetricStepBlock | datavines-engine/datavines-engine-config/src/main/java/io/datavines/engine/config/BaseJobConfigurationBuilder.java:164-209 | an iteration completes exactly when the expected-value plugin exists; it then emits one well-ordered block; each stage's context names the tables before it, `expected_table` only when the output table is non-empty, and `unique_code` |
| JobConfiguration.MetricStepFlag | datavines-engine/datavines-engine-config/src/main/java/io/datavines/engine/config/BaseJobConfigurationBuilder.java:159-162 | the stored and every stage's `invalidate_item_can_output` is the earlier flag ANDed with the metric's own |
| JobConfiguration.MetricStepOutcome | datavines-engine/datavines-engine-config/src/main/java/io/datavines/engine/config/BaseJobConfigurationBuilder.java:159-209 | the block, the flag, and the final context: `unique_code` computed from the context after `expected_table` was written |
| JobConfiguration.VisitMetric | datavines-engine/datavines-engine-config/src/main/java/io/datavines/engine/config/BaseJobConfigurationBuilder.java:151-211 | one iteration advances the walk `BuildStages` by one metric, or ends it (a missing context or plugin is the NullPointerException) |
| JobConfiguration.BuildStagesBlocks | datavines-engine/datavines-engine-config/src/main/java/io/datavines/engine/config/BaseJobConfigurationBuilder.java:150-213 | a completed walk emits one well-ordered block per metric with no interleaving; block `i` is the stage list of metric `i`'s iteration, run on the context the walk holds under that metric's key at that point, and the final contexts are those the last iteration leaves |
| JobConfiguration.OneExpectedStagePerMetric | datavines-engine/datavines-engine-config/src/main/java/io/datavines/engine/config/BaseJobConfigurationBuilder.java:150-213 | a completed walk emits exactly as many expected-value stages as there are metrics |
| JobConfiguration.BuildStagesCompletes | datavines-engine/datavines-engine-config/src/main/java/io/datavines/engine/config/BaseJobConfigurationBuilder.java:150-213 | when every metric has a context, the walk completes exactly when every metric plugin and expected-value plugin is registered |
| JobConfiguration.JobConfigurationBuilder.BuildTransformConfigs | datavines-engine/datavines-engine-config/src/main/java/io/datavines/engine/config/BaseJobConfigurationBuilder.java:147-215 | the stored contexts and the outcome are those of `BuildStages`; the plan's transform list is set, to the stages, only when the walk completes over a non-empty metric list |
| JobConfiguration.ValidateResultSourceConfigMapTo | datavines-engine/datavines-engine-config/src/main/java/io/datavines/engine/config/BaseJobConfigurationBuilder.java:292-311 | `table = dbTable`, `output_table = outputTable`, `sql` present when non-empty, `driver` present exactly when the factory exists and a storage parameter is given; the key set is exactly those keys, plus the converted parameters' keys when a storage parameter is used; converted parameters under other keys kept |
| JobConfiguration.ValidateResultSourceConfigMap | datavines-engine/datavines-engine-config/src/main/java/io/datavines/engine/config/BaseJobConfigurationBuilder.java:271-290 | exactly the 3-argument map with `output_table = dbTable` (so the converted connection parameters, the driver's value and the key set carry over), with its `table`, `output_table`, `sql` and `driver` rules restated |
| JobConfiguration.ValidateResultDataSourceConfig | datavines-engine/datavines-engine-config/src/main/java/io/datavines/engine/config/BaseJobConfigurationBuilder.java:226-250 | both overloads: a METADATA source over `dv_actual_values` with the factory's category, whose configuration is exactly the 3-argument map over `dv_actual_values` with no `sql` and `output_table` the given table (or `dv_actual_values` for the no-argument overload); a missing factory is the NullPointerException |
| JobConfiguration.ValidateResultDataSinkConfig | datavines-engine/datavines-engine-config/src/main/java/io/datavines/engine/config/BaseJobConfigurationBuilder.java:252-269 | the sink carries the storage type, job execution id, invalidate-items table, unique key, `table`/`output_table`, `sql` holding the rendered statement when that is non-empty, and `driver` exactly when the factory exists and a storage parameter is given; its keys are exactly the 2-argument map's over the rendered SQL plus `job_execution_id`, `invalidate_items_table`, `metric_unique_key` and, for a literal key, `expected_value`, and that map's entries under every other key are kept; a non-empty literal key is written into the caller's context and the sink's `expected_value` read back from it |
| JobService.ServerMetricKey | datavines-server/src/main/java/io/datavines/server/repository/service/impl/JobServiceImpl.java:743-750 | the key exists exactly when the metric-parameter map is non-null, and it is the 32-character MD5 of `type_db_table_column` |
| JobService.BuilderTextExtendsServerText | datavines-server/src/main/java/io/datavines/server/repository/service/impl/JobServiceImpl.java:743-750 | the server's identity text is the builder's without `_jobId`: the job id is not part of the server key |
| JobService.ServerKeyDeterminedByIdentity | datavines-server/src/main/java/io/datavines/server/repository/service/impl/JobServiceImpl.java:743-750 | metrics with equal identity text get equal server keys |
| JobService.IdentityTextAmbiguous | datavines-server/src/main/java/io/datavines/server/repository/service/impl/JobServiceImpl.java:743-750 | `a_b`.`c` and `a`.`b_c` have the same identity text although their databases differ |
| JobService.ServerKeysAt | datavines-server/src/main/java/io/datavines/server/repository/service/impl/JobServiceImpl.java:726-735 | the key list holds each metric's server key at its position |
| JobService.CountsAreOccurrences | datavines-server/src/main/java/io/datavines/server/repository/service/impl/JobServiceImpl.java:726-735 | the count map holds exactly the keys that occur, each with its number of occurrences |
| JobService.CountServerKeys | datavines-server/src/main/java/io/datavines/server/repository/service/impl/JobServiceImpl.java:726-735 | the counting loop builds the count map of the key list, or fails exactly when some metric-parameter map is null |
| JobService.RepeatIffCountedTwice | datavines-server/src/main/java/io/datavines/server/repository/service/impl/JobServiceImpl.java:725-742 | a key repeats exactly when its count is above one |
| JobService.AnyCountedTwice | datavines-server/src/main/java/io/datavines/server/repository/service/impl/JobServiceImpl.java:737-741 | the entry scan finds a count above one exactly when there is one |
| JobService.CheckDuplicateMetricInJob | datavines-server/src/main/java/io/datavines/server/repository/service/impl/JobServiceImpl.java:725-742 | the method's decision is `DuplicateCheck` |
| JobService.DuplicateIffSharedKey | datavines-server/src/main/java/io/datavines/server/repository/service/impl/JobServiceImpl.java:725-750 | the job is rejected as a duplicate exactly when every map is non-null and two different positions share a server key |
| JobService.GetFQN | datavines-server/src/main/java/io/datavines/server/repository/service/impl/JobServiceImpl.java:386-411 | null map, failed cast, null for an empty database, `db.table`; for an empty table: a cast error for a non-string custom SQL, the custom-SQL error when it has no table, otherwise `db.` plus its first extracted table; then `.column` only for a non-empty column; a result starts with `db.` |
| JobService.FqnSplits | datavines-server/src/main/java/io/datavines/server/repository/service/impl/JobServiceImpl.java:386-411 | names without dots are recovered from the FQN by splitting it at the dots |
| JobService.IsColumn | datavines-server/src/main/java/io/datavines/server/repository/service/impl/JobServiceImpl.java:381-384 | true exactly when the column, cast to a string, is non-empty; null map and failed cast are errors |
| JobService.ColumnFqnEndsWithColumn | datavines-server/src/main/java/io/datavines/server/repository/service/impl/JobServiceImpl.java:381-411 | for a column metric the FQN ends with `.column` |
| JobService.VerdictRules | datavines-server/src/main/java/io/datavines/server/repository/service/impl/JobServiceImpl.java:335-370 | one parameter: the local-engine rejection happens exactly under its condition; an empty FQN is an error; a non-column parameter stops; for a column parameter: a missing column entity stops, empty entity properties are an unknown-type error, unparsable column info goes on, an unknown column type is an unknown-type error, a missing metric plugin is a missing-entity error; stopping happens only for a non-column or a missing column entity |
| JobService.UnsuitableTypeRejected | datavines-server/src/main/java/io/datavines/server/repository/service/impl/JobServiceImpl.java:361-375 | once the entity, its column type and the metric are found, the parameter is rejected exactly when the type is not suitable for the metric |
| JobService.SuitabilityFirstDecides | datavines-server/src/main/java/io/datavines/server/repository/service/impl/JobServiceImpl.java:329-379 | the first parameter whose verdict is not "go on" decides the job; when there is none the job passes |
| JobService.LocalEngineRejectsMultiTable | datavines-server/src/main/java/io/datavines/server/repository/service/impl/JobServiceImpl.java:335-340 | a multi-table accuracy metric (any case) across two different datasources on the `local` engine rejects the job unless an earlier parameter decided |
| JobService.StopIgnoresRest | datavines-server/src/main/java/io/datavines/server/repository/service/impl/JobServiceImpl.java:346-353 | after a parameter that stops the check, later parameters do not matter |
| JobService.FirstDecisive | datavines-server/src/main/java/io/datavines/server/repository/service/impl/JobServiceImpl.java:334-378 | the scan with early return computes `Decide` of the verdicts |
| JobService.IsMetricSuitable | datavines-server/src/main/java/io/datavines/server/repository/service/impl/JobServiceImpl.java:329-379 | the method's decision is `Suitability`; an empty list passes |
| JobService.SetJobAttribute | datavines-server/src/main/java/io/datavines/server/repository/service/impl/JobServiceImpl.java:413-425 | only the first parameter is read; the job gets its database, table, column and type; the result is the list holding its FQN (at most one); an empty list changes nothing; a failed cast keeps the fields written before it (database, then table, then column) |
| JobService.GetJobName | datavines-server/src/main/java/io/datavines/server/repository/service/impl/JobServiceImpl.java:610-640 | empty list or empty metric parameters is an error; quality and reconciliation give `UPPER(metric)(symbol)`; profile gives `data_profile(db.table)`; a name ends with `)` for those three types |
| JobService.GetErrorDataFileName | datavines-server/src/main/java/io/datavines/server/repository/service/impl/JobServiceImpl.java:684-704 | empty list or empty metric parameters is an error, a non-string column a cast error, and nothing else fails (a metric type is never null in this model) |
| JobService.ErrorDataFileNameShape | datavines-server/src/main/java/io/datavines/server/repository/service/impl/JobServiceImpl.java:697-703 | `lower(metric)_ts`, or `lower(metric)_column_ts` for a non-empty column: it starts with `lower(metric)_`, ends with `_ts`, has `_column_` right after the metric type and has exactly the length of the three parts and two underscores |
| JobService.SelfOutputGuard | datavines-server/src/main/java/io/datavines/server/repository/service/impl/JobServiceImpl.java:137-146 | error output to an existing datasource is rejected exactly when its connector factory is missing or its dialect cannot write invalid rows to itself (the same guard is at lines 209-218 of `update`) |
| ColumnStdDev.Plugin | datavines-metric/datavines-metric-plugins/datavines-metric-column-std-dev/src/main/java/io/datavines/metric/plugin/ColumnStdDev.java:37-86 | name `column_std_dev`, type SINGLE_TABLE, dimension COMPLETENESS, suitable types exactly `[NUMERIC_TYPE]`, never invalid rows, actual value `GetActualValue` |
| ColumnStdDev.GetInvalidateItems | datavines-metric/datavines-metric-plugins/datavines-metric-column-std-dev/src/main/java/io/datavines/metric/plugin/ColumnStdDev.java:62-65 | always null |
| ColumnStdDev.BuildActualValue | datavines-metric/datavines-metric-plugins/datavines-metric-column-std-dev/src/main/java/io/datavines/metric/plugin/ColumnStdDev.java:67-81 | result table `invalidate_count_` + unique key, error output false, the statement `GetActualValue` describes |
| ColumnStdDev.ActualValueSqlShape | datavines-metric/datavines-metric-plugins/datavines-metric-column-std-dev/src/main/java/io/datavines/metric/plugin/ColumnStdDev.java:72-78 | the query starts with the dialect's query; it is that query exactly when there are no filters, and otherwise ends with ` where ` and the filters joined by ` and ` |
| ColumnStdDev.ResultTablesDistinct | datavines-metric/datavines-metric-plugins/datavines-metric-column-std-dev/src/main/java/io/datavines/metric/plugin/ColumnStdDev.java:69-71 | metrics with different unique keys write different result tables |
| FlinkMetricScript.HistogramActualValue | datavines-connector/datavines-connector-plugins/datavines-connector-flink/src/main/java/io/datavines/connector/plugin/FlinkMetricScript.java:21-26 | aliased `actual_value_<key>`, `where` spliced between `from ${table}` and `group by ${column}`, ends with `order by count desc limit 50) T ` |
| FlinkMetricScript.NotMatchNegatesMatch | datavines-connector/datavines-connector-plugins/datavines-connector-flink/src/main/java/io/datavines/connector/plugin/FlinkMetricScript.java:28-36 | the negated predicate is the plain one with `!` inserted before `regexp` |
| FlinkMetricScript.AverageQueryShape | datavines-connector/datavines-connector-plugins/datavines-connector-flink/src/main/java/io/datavines/connector/plugin/FlinkMetricScript.java:38-73 | every expected-value query opens with its aggregate `select` fragment followed by the alias `expected_value_<key>`, reads `md_dv_actual_values`, filters `unique_code = ${unique_code}` and contains its two bounds |
| FlinkMetricScript.DailyAvg | datavines-connector/datavines-connector-plugins/datavines-connector-flink/src/main/java/io/datavines/connector/plugin/FlinkMetricScript.java:38-45 | opens with `SELECT ROUND(AVG(actual_value), 2) AS expected_value_<key>`, reads the metric's own rows (`unique_code = ${unique_code}`) of `md_dv_actual_values`, over `[${day_start_time}, ${day_end_time})` |
| FlinkMetricScript.Last7DayAvg | datavines-connector/datavines-connector-plugins/datavines-connector-flink/src/main/java/io/datavines/connector/plugin/FlinkMetricScript.java:47-52 | opens with `select round(avg(actual_value),2) as expected_value_<key>`, reads the metric's own rows (`unique_code = ${unique_code}`) of `md_dv_actual_values`, over `[${day_start_time}, ${day_after_7_end_time})` |
| FlinkMetricScript.Last30DayAvg | datavines-connector/datavines-connector-plugins/datavines-connector-flink/src/main/java/io/datavines/connector/plugin/FlinkMetricScript.java:54-59 | opens with `select round(avg(actual_value),2) as expected_value_<key>`, reads the metric's own rows (`unique_code = ${unique_code}`) of `md_dv_actual_values`, over `[${day_start_time}, ${day_after_30_end_time})` |
| FlinkMetricScript.MonthlyAvg | datavines-connector/datavines-connector-plugins/datavines-connector-flink/src/main/java/io/datavines/connector/plugin/FlinkMetricScript.java:61-66 | opens with `select round(avg(actual_value),2) as expected_value_<key>`, reads the metric's own rows (`unique_code = ${unique_code}`) of `md_dv_actual_values`, over `[${month_start_day} 00:00:00, ${month_end_day} 23:59:59]` |
| FlinkMetricScript.WeeklyAvg | datavines-connector/datavines-connector-plugins/datavines-connector-flink/src/main/java/io/datavines/connector/plugin/FlinkMetricScript.java:68-73 | opens with `select round(avg(actual_value),2) as expected_value_<key>`, reads the metric's own rows (`unique_code = ${unique_code}`) of `md_dv_actual_values`, over `[${week_start_day} 00:00:00, ${week_end_day} 23:59:59]` |
| SqlTransform.SqlTransform.SetConfig | datavines-engine/datavines-engine-plugins/datavines-engine-jdbc/datavines-engine-jdbc-sql/src/main/java/io/datavines/engine/jdbc/transform/sql/SqlTransform.java:22-27 | a null configuration leaves the current one in place, any other replaces it |
| SqlTransform.CollectMissing | datavines-engine/datavines-engine-plugins/datavines-engine-jdbc/datavines-engine-jdbc-sql/src/main/java/io/datavines/engine/jdbc/transform/sql/SqlTransform.java:36-43 | the `forEach` over the required options collects `Missing`, in required order |
| SqlTransform.MissingMembers | datavines-engine/datavines-engine-plugins/datavines-engine-jdbc/datavines-engine-jdbc-sql/src/main/java/io/datavines/engine/jdbc/transform/sql/SqlTransform.java:38-43 | an option is reported exactly when it is required and absent |
| SqlTransform.ConfigCheckValid | datavines-engine/datavines-engine-plugins/datavines-engine-jdbc/datavines-engine-jdbc-sql/src/main/java/io/datavines/engine/jdbc/transform/sql/SqlTransform.java:36-53 | the check succeeds exactly when `sql` and `plugin_type` are both present, and exactly then its message is empty |
| SqlTransform.MessageBothMissing | datavines-engine/datavines-engine-plugins/datavines-engine-jdbc/datavines-engine-jdbc-sql/src/main/java/io/datavines/engine/jdbc/transform/sql/SqlTransform.java:45-49 | with both missing: `please specify [sql],[plugin_type] as non-empty string` |
| SqlTransform.MessageOneMissing | datavines-engine/datavines-engine-plugins/datavines-engine-jdbc/datavines-engine-jdbc-sql/src/main/java/io/datavines/engine/jdbc/transform/sql/SqlTransform.java:45-49 | with one missing: `please specify [that option] as non-empty string` |
| SqlTransform.SqlTransform.CheckConfig | datavines-engine/datavines-engine-plugins/datavines-engine-jdbc/datavines-engine-jdbc-sql/src/main/java/io/datavines/engine/jdbc/transform/sql/SqlTransform.java:34-53 | the method's result is `ConfigCheck` of the current configuration and succeeds exactly when both options are present |
| SqlTransform.Dispatch | datavines-engine/datavines-engine-plugins/datavines-engine-jdbc/datavines-engine-jdbc-sql/src/main/java/io/datavines/engine/jdbc/transform/sql/SqlTransform.java:67-82 | the metadata connection exactly for EXPECTED_VALUE_FROM_METADATA_SOURCE; no case exactly for EXPECTED_VALUE_FROM_SOURCE |
| SqlTransform.DispatchExecutor | datavines-engine/datavines-engine-plugins/datavines-engine-jdbc/datavines-engine-jdbc-sql/src/main/java/io/datavines/engine/jdbc/transform/sql/SqlTransform.java:67-82 | the expected-value executor exactly for the two dispatched expected types; every other dispatched type uses the source connection |
| SqlTransform.SqlTransform.Process | datavines-engine/datavines-engine-plugins/datavines-engine-jdbc/datavines-engine-jdbc-sql/src/main/java/io/datavines/engine/jdbc/transform/sql/SqlTransform.java:61-89 | a result exactly when the type parses and is dispatched; the output table is always `invalidate_items_table`, the statement `sql`, the executor and connection those of `Dispatch` |
| Presto.GetUrl | datavines-connector/datavines-connector-plugins/datavines-connector-presto/src/main/java/io/datavines/connector/plugin/PrestoParameterConverter.java:28-49 | starts with `jdbc:presto://`; `host:port/catalog`, then `/database` only for a non-empty database, then `?properties` exactly for non-empty properties; non-string database or properties is the cast error |
| Presto.PathSegments | datavines-connector/datavines-connector-plugins/datavines-connector-presto/src/main/java/io/datavines/connector/plugin/PrestoParameterConverter.java:31-42 | slash-free parts split back from the path; the path has three parts exactly when a database is given |
| ClickHouse.Convert | datavines-connector/datavines-connector-plugins/datavines-connector-clickhouse/src/main/java/io/datavines/connector/plugin/ClickHouseTypeConverter.java:25-38 | null or empty input is the `sql type id null error`; `DECIMAL32`/`DECIMAL64` in any case give BIG_DECIMAL_TYPE; anything else goes to the generic converter with the original string |
| ClickHouse.DecimalCaseIndependent | datavines-connector/datavines-connector-plugins/datavines-connector-clickhouse/src/main/java/io/datavines/connector/plugin/ClickHouseTypeConverter.java:30-33 | decimal names that differ only in letter case convert alike |
| Pipeline.StdDevStages | datavines-engine/datavines-engine-config/src/main/java/io/datavines/engine/config/BaseJobConfigurationBuilder.java:164-209 | the standard-deviation metric yields two stages per metric, its actual value on `invalidate_count_<key>` then the expected value, and the context then names that table |
| Pipeline.TemplateWindowsFilledByInit | datavines-connector/datavines-connector-plugins/datavines-connector-flink/src/main/java/io/datavines/connector/plugin/FlinkMetricScript.java:38-73 | every calendar placeholder the Flink windows use is a key `init` fills from the calendar |
| Pipeline.ExpectedStagesDispatched | datavines-engine/datavines-engine-plugins/datavines-engine-jdbc/datavines-engine-jdbc-sql/src/main/java/io/datavines/engine/jdbc/transform/sql/SqlTransform.java:67-82 | of the builder's expected-value stages, the JDBC SQL transform runs exactly those taken from the metadata source |

## Left out

- **I/O and external services.** File I/O, the database and the JDBC
  executors are not modelled. Only the dispatch choice of `process` is.
  Exceptions inside the executors are not modelled either.
- **The clock.** `LocalDate.now`, the `DateUtils` formatting and
  `System.currentTimeMillis` are inputs (a `Calendar` record of formatted
  strings and an `int`).
- **MD5.** `DigestUtils.md5Hex` is a parameter. It returns 32 lower-case hex
  characters, and it is a function, so it is deterministic.
- **Other external calls.** JSON parsing, `CommonPropertyUtils`, the catalog,
  `SqlUtils.extractTablesFromSelect`, `MetricParserUtils.operateInputParameter`,
  `generateUniqueCode`, `ParameterUtils.convertParameterPlaceholders`, the
  metric scripts, `TransformType.of`, `DataVinesDataType.getType` and
  `super.convert` are parameters with no further assumptions.
- **`PluginLoader`.** It is a registry function. A plugin without a body is a
  missing plugin, `None`.
- **`setTransformerConfig`.** Its internals are not part of this model. A
  stage is its type, its SQL and a snapshot of the metric's context at that
  moment. The model does not capture whether that call keeps a reference to
  the live map.
- **Aliasing.**
  - `init` stores the caller's map as `inputParameter` and writes into it.
    The model returns the new map and does not capture that the caller sees
    the writes.
  - `MetricParserUtils.operateInputParameter` mutates the context in place.
    The model treats it as a function from one context to the next.
- **Missing metric plugin.** When the plugin is missing, the source calls
  `operateInputParameter` with `null` before failing. The model ends the walk
  with that metric's context unchanged.
- **Null lists.** The metric-parameter list is a sequence, so a null list is
  not represented; the empty list is. `init` and `buildTransformConfigs` read
  the list through `jobExecutionParameter`. The model reads it from the job
  execution record.
- **The null check in `init`** (BaseJobConfigurationBuilder.java:104) can
  never fail in the source, because `getMetricUniqueKey` already dereferenced
  the map at line 100. The model takes the NullPointerException at the key.
- **Constant values not in these files.**
  - The values of the `ConfigConstants` key names are taken to be the
    lower-case snake_case of their names. The Flink templates confirm this
    for the calendar keys.
  - The global property names are assumed too: `error.data.dir`,
    `validate.result.data.dir`, and the two separator names.
  - `JobType.DATA_PROFILE`'s description is taken to be `data_profile`.
  - `MetricType.MULTI_TABLE_ACCURACY`'s description is taken to be
    `multi_table_accuracy`.
- **`JobType.of`.** It is abstracted: the caller passes the job type, and a
  name `JobType.of` does not recognise is the `OtherJobType` case, which takes
  the `default` branch of `getJobName`.
- **Null job-execution id.** `JobExecutionInfo.id` is an `int`, so the boxed
  id's `null` is not represented. In the source `%s` would print `null` into
  the unique key (BaseJobConfigurationBuilder.java:313-320), and the sink would
  carry a null `job_execution_id` (line 258).
- **Null metric type.** `BaseJobParameter.metricType` is a string, so a null
  metric type is not represented. In the source it is a NullPointerException
  at `toUpperCase` (JobServiceImpl.java:370, 632, 636), at `toLowerCase` (700, 702),
  and `%s` prints `null` into both unique keys
  (BaseJobConfigurationBuilder.java:313-320, JobServiceImpl.java:744-750).
- **JSON values.** `JSONUtils.toMap` is modelled as always returning a string
  map, so its null result (the NullPointerException at
  BaseJobConfigurationBuilder.java:77 and 92) and JSON-null separator values
  are not represented. The parameter values have no floating-point case, so a
  double such as a threshold is not represented either.
- **Letter case.** `toUpperCase`, `toLowerCase` and `equalsIgnoreCase` are
  modelled on ASCII letters only.
- **`Config`.** `Config.has` and `Config.getString` are modelled as map
  membership and lookup on a string map.
- **SqlTransform's missing case.** It has no case for
  EXPECTED_VALUE_FROM_SOURCE, which the builder emits for plugins that do not
  need the default datasource. The model keeps this as written
  (`Pipeline.ExpectedStagesDispatched`). It is not reported as a defect,
  because the `TransformType` enumeration is not part of this model.
- **Members not modelled.** `getZhName`, `prepare` (which supplies the metric's
  filters) and the inherited row-output flag of the single-table column
  metric are not modelled. The filters and the flag are parameters of
  `ColumnStdDev.Plugin`.
- **The help texts** of the error statuses are not modelled. Only the status
  kinds are.
- JobService.IsMetricSuitable: computes every parameter's verdict up front and scans them
  in order. Verdicts are pure here, so the decision is the one the source's
  early return makes. What the model does not capture is that the source never
  consults the catalog for parameters after the deciding one.
- JobService.GetErrorDataFileName: its own contract covers only the error cases; the
  file name's shape is stated by `JobService.ErrorDataFileNameShape`.
- JobService.GetJobName: the default job type's `JOB[db.table.column]ts` name is
  computed but not stated in the contract.
- JobService.IdentityTextAmbiguous: the ambiguity of the server's duplicate
  key is shown by example only. Whether it was intended cannot be told from
  the source, so no corrected key is given.
