/**
 * Facts that connect the components: the standard-deviation metric inside
 * the stage builder, the Flink templates' placeholders against the base
 * context `init` builds, and the stage types the builder emits against the
 * ones the JDBC SQL transform can run.
 */
module Pipeline {
  import opened Common
  import opened Api
  import JobConfiguration
  import ColumnStdDev
  import FlinkMetricScript
  import SqlTransform

  /**
   * The standard-deviation metric yields two stages per metric: its actual
   * value, on table `invalidate_count_<key>` with no error output, then the
   * expected value; the metric's context then names that table.
   */
  lemma StdDevStages(ctx: ParamMap, script: MetricScript, filters: seq<string>, canOutput: bool,
                     ev: ExpectedValue, env: JobConfiguration.CompileEnv)
    ensures var r := JobConfiguration.MetricStep(ctx, ColumnStdDev.Plugin(script, filters, canOutput), Some(ev), env);
      && r.ok && |r.stages| == 2
      && r.stages[0].kind == ActualValue
      && r.stages[0].executeSql.resultTable == Some(ColumnStdDev.RESULT_TABLE_PREFIX + ShowStr(Get(r.stages[0].context, METRIC_UNIQUE_KEY)))
      && !r.stages[0].executeSql.errorOutput
      && r.stages[1].kind == JobConfiguration.ExpectedStageType(ev)
      && Get(r.ctx, ACTUAL_TABLE) == r.stages[0].executeSql.resultTable
  {
    var metric := ColumnStdDev.Plugin(script, filters, canOutput);
    var c2 := JobConfiguration.FlagContext(ctx, metric, env);
    assert metric.invalidateItems(c2).None?;
    assert JobConfiguration.InvalidateContext(c2, metric) == c2;
    assert metric.actualValue(c2) == ColumnStdDev.GetActualValue(script, filters, c2);
    JobConfiguration.MetricStepOutcome(ctx, metric, Some(ev), env);
    assert ACTUAL_TABLE != EXPECTED_TABLE && ACTUAL_TABLE != UNIQUE_CODE by {
      assert ACTUAL_TABLE[0] == 'a' && EXPECTED_TABLE[0] == 'e' && UNIQUE_CODE[0] == 'u';
    }
  }

  /**
   * Every calendar placeholder the Flink expected-value templates bound their
   * windows with names a key `init` fills from the calendar.
   */
  lemma TemplateWindowsFilledByInit(input: ParamMap, info: JobConfiguration.JobExecutionInfo, cal: JobConfiguration.Calendar,
                                    props: JobConfiguration.CommonProperties, toMap: JobConfiguration.JsonToMap, uniqueKey: string)
    ensures var b := JobConfiguration.BaseContext(input, info, cal, props, toMap);
      && FlinkMetricScript.HalfOpenWindow(FlinkMetricScript.DailyAvg(uniqueKey), FlinkMetricScript.Placeholder(DAY_START_TIME), FlinkMetricScript.Placeholder(DAY_END_TIME))
      && FlinkMetricScript.HalfOpenWindow(FlinkMetricScript.Last7DayAvg(uniqueKey), FlinkMetricScript.Placeholder(DAY_START_TIME), FlinkMetricScript.Placeholder(DAY_AFTER_7_END_TIME))
      && FlinkMetricScript.HalfOpenWindow(FlinkMetricScript.Last30DayAvg(uniqueKey), FlinkMetricScript.Placeholder(DAY_START_TIME), FlinkMetricScript.Placeholder(DAY_AFTER_30_END_TIME))
      && Get(b, DAY_START_TIME) == Some(cal.dayStart) && Get(b, DAY_END_TIME) == Some(cal.dayEnd)
      && Get(b, DAY_AFTER_7_END_TIME) == Some(cal.dayAfter7End) && Get(b, DAY_AFTER_30_END_TIME) == Some(cal.dayAfter30End)
      && Get(b, MONTH_START_DAY) == Some(cal.monthStart) && Get(b, MONTH_END_DAY) == Some(cal.monthEnd)
      && Get(b, WEEK_START_DAY) == Some(cal.weekStart) && Get(b, WEEK_END_DAY) == Some(cal.weekEnd)
  {
    JobConfiguration.BaseContextCalendar(input, info, cal, props, toMap);
  }

  /**
   * The JDBC SQL transform runs an expected-value stage of the builder only
   * when its value comes from the metadata source; a stage whose value comes
   * from the checked source has no case and yields no result.
   */
  lemma ExpectedStagesDispatched(ev: ExpectedValue)
    ensures SqlTransform.Dispatch(JobConfiguration.ExpectedStageType(ev)).Some? <==> ev.needDefaultDatasource
    ensures SqlTransform.Dispatch(ActualValue) == Some((SqlTransform.ActualValueExecutor, SqlTransform.SourceConnection))
    ensures SqlTransform.Dispatch(InvalidateItems) == Some((SqlTransform.InvalidateItemsExecutor, SqlTransform.SourceConnection))
  {
  }
}
