/**
 * The JDBC engine's SQL transform stage (`SqlTransform`): its configuration
 * is replaced only by a non-null one, the check reports the required options
 * that are missing, and `process` picks the executor and the connection from
 * the stage type.  The executors themselves run SQL over JDBC and are not
 * part of this model; `process` yields the choice it hands to them.
 */
module SqlTransform {
  import opened Common
  import opened Api

  /** The options every SQL transform needs, in the order they are reported. */
  const REQUIRED_OPTIONS: seq<string> := ["sql", "plugin_type"]

  const PLUGIN_TYPE := "plugin_type"

  datatype CheckResult = CheckResult(success: bool, msg: string)

  /** The options of `required` the configuration lacks, in their order. */
  function Missing(config: map<string, string>, required: seq<string>): (r: seq<string>)
    ensures |r| <= |required|
  {
    if required == [] then []
    else (if required[0] in config then [] else [required[0]]) + Missing(config, required[1..])
  }

  /** The missing options are exactly the required ones the configuration lacks. */
  lemma {:induction false} MissingMembers(config: map<string, string>, required: seq<string>)
    ensures forall x :: x in Missing(config, required) <==> x in required && x !in config
    decreases |required|
  {
    if required != [] {
      MissingMembers(config, required[1..]);
      assert forall x :: x in required <==> x == required[0] || x in required[1..];
    }
  }

  /** `[option]` for each option, in order. */
  function Bracketed(options: seq<string>): (r: seq<string>)
    ensures |r| == |options|
    ensures forall i :: 0 <= i < |options| ==> r[i] == "[" + options[i] + "]"
  {
    if options == [] then [] else ["[" + options[0] + "]"] + Bracketed(options[1..])
  }

  /** What `checkConfig` reports for a configuration. */
  function ConfigCheck(config: map<string, string>): CheckResult {
    Report(Missing(config, REQUIRED_OPTIONS))
  }

  /** The result for a list of missing options: a failure naming them, or success with no message. */
  function Report(missing: seq<string>): CheckResult {
    if missing != [] then CheckResult(false, "please specify " + Join(",", Bracketed(missing)) + " as non-empty string")
    else CheckResult(true, "")
  }

  /** The check passes exactly when both required options are present, and then says nothing. */
  lemma ConfigCheckValid(config: map<string, string>)
    ensures ConfigCheck(config).success <==> "sql" in config && PLUGIN_TYPE in config
    ensures ConfigCheck(config).success <==> ConfigCheck(config).msg == ""
  {
    MissingRequired(config);
    var missing := Missing(config, REQUIRED_OPTIONS);
    if missing != [] {
      var m := "please specify " + Join(",", Bracketed(missing)) + " as non-empty string";
      assert |m| > 0;
    }
  }

  /** The missing required options, spelled out. */
  lemma MissingRequired(config: map<string, string>)
    ensures Missing(config, REQUIRED_OPTIONS)
      == (if "sql" in config then [] else ["sql"]) + (if PLUGIN_TYPE in config then [] else [PLUGIN_TYPE])
  {
    var rest := REQUIRED_OPTIONS[1..];
    assert rest == [PLUGIN_TYPE];
    assert rest[1..] == [];
    assert Missing(config, rest) == (if PLUGIN_TYPE in config then [] else [PLUGIN_TYPE]) + Missing(config, []);
  }

  /** With both options missing, the message names both, bracketed, in required order. */
  lemma MessageBothMissing(config: map<string, string>)
    requires "sql" !in config && PLUGIN_TYPE !in config
    ensures ConfigCheck(config).msg == "please specify " + ("[" + "sql" + "]" + "," + "[" + PLUGIN_TYPE + "]") + " as non-empty string"
  {
    MissingRequired(config);
    var missing := Missing(config, REQUIRED_OPTIONS);
    assert missing == ["sql"] + [PLUGIN_TYPE];
    var brackets := Bracketed(missing);
    assert brackets[0] == "[" + "sql" + "]" && brackets[1] == "[" + PLUGIN_TYPE + "]";
    assert brackets[1..] == [brackets[1]];
    assert Join(",", brackets) == brackets[0] + "," + brackets[1];
  }

  /** With one option missing, the message names just that one. */
  lemma MessageOneMissing(config: map<string, string>)
    requires "sql" !in config <==> PLUGIN_TYPE in config
    ensures ConfigCheck(config).msg ==
      "please specify " + ("[" + (if "sql" !in config then "sql" else PLUGIN_TYPE) + "]") + " as non-empty string"
  {
    MissingRequired(config);
    var missing := Missing(config, REQUIRED_OPTIONS);
    assert missing == [if "sql" !in config then "sql" else PLUGIN_TYPE];
    var brackets := Bracketed(missing);
    assert |brackets| == 1;
  }

  /** The loop of `checkConfig`: walks the required options in order, keeping those the configuration lacks. */
  method CollectMissing(config: map<string, string>, requiredOptions: seq<string>) returns (nonExistsOptions: seq<string>)
    ensures nonExistsOptions == Missing(config, requiredOptions)
  {
    nonExistsOptions := [];
    var i := 0;
    while i < |requiredOptions|
      invariant 0 <= i <= |requiredOptions|
      invariant nonExistsOptions == Missing(config, requiredOptions[..i])
    {
      assert requiredOptions[..i + 1] == requiredOptions[..i] + [requiredOptions[i]];
      MissingSnoc(config, requiredOptions[..i], requiredOptions[i]);
      if requiredOptions[i] !in config {
        nonExistsOptions := nonExistsOptions + [requiredOptions[i]];
      }
      i := i + 1;
    }
    assert requiredOptions[..|requiredOptions|] == requiredOptions;
  }

  /** Checking one more option appends it when it is missing. */
  lemma {:induction false} MissingSnoc(config: map<string, string>, required: seq<string>, x: string)
    ensures Missing(config, required + [x]) == Missing(config, required) + (if x in config then [] else [x])
    decreases |required|
  {
    if required == [] {
      assert [] + [x] == [x] && [x][1..] == [];
    } else {
      var s := required + [x];
      assert s[0] == required[0] && s[1..] == required[1..] + [x];
      MissingSnoc(config, required[1..], x);
    }
  }

  /** Where a stage's SQL runs. */
  datatype Connection = SourceConnection | MetadataConnection

  datatype Executor = InvalidateItemsExecutor | ActualValueExecutor | ExpectedValueExecutor

  /** The executor call `process` makes: which executor, on which connection, with which statement and table. */
  datatype Execution = Execution(executor: Executor, connection: Connection, sql: Option<string>, outputTable: Option<string>)

  /** The executor and connection for a stage type; no case for values taken from the target source. */
  function Dispatch(t: TransformType): (r: Option<(Executor, Connection)>)
    ensures r.Some? && r.value.1 == MetadataConnection <==> t == ExpectedValueFromMetadataSource
    ensures r.None? <==> t == ExpectedValueFromSource
  {
    match t
    case InvalidateItems => Some((InvalidateItemsExecutor, SourceConnection))
    case ActualValue => Some((ActualValueExecutor, SourceConnection))
    case ExpectedValueFromMetadataSource => Some((ExpectedValueExecutor, MetadataConnection))
    case ExpectedValueFromSrcSource => Some((ExpectedValueExecutor, SourceConnection))
    case ExpectedValueFromSource => None
  }

  /** The three expected-value types all go to the expected-value executor when they are dispatched at all. */
  lemma DispatchExecutor(t: TransformType)
    ensures Dispatch(t).Some? ==>
      (Dispatch(t).value.0 == ExpectedValueExecutor <==> t == ExpectedValueFromMetadataSource || t == ExpectedValueFromSrcSource)
    ensures Dispatch(t).Some? && t != ExpectedValueFromMetadataSource ==> Dispatch(t).value.1 == SourceConnection
  {
  }

  /** `TransformType.of`: parses the stage type; an unknown name is an exception. */
  type TypeParser = Option<string> -> Option<TransformType>

  class SqlTransform {
    var config: map<string, string>

    constructor ()
      ensures config == map[]
    {
      config := map[];
    }

    /** `setConfig`: a null configuration leaves the current one in place. */
    method SetConfig(c: Option<map<string, string>>)
      modifies this`config
      ensures config == (if c.Some? then c.value else old(config))
    {
      if c.Some? {
        config := c.value;
      }
    }

    /** `checkConfig`: collects the missing required options, then reports them bracketed and comma-separated. */
    method CheckConfig() returns (r: CheckResult)
      ensures r == ConfigCheck(config)
      ensures r.success <==> "sql" in config && PLUGIN_TYPE in config
    {
      var nonExistsOptions := CollectMissing(config, REQUIRED_OPTIONS);
      ConfigCheckValid(config);
      r := Report(nonExistsOptions);
    }

    /**
     * `process` up to the executor call: the output table is always read
     * from `invalidate_items_table`; an unknown or undispatched type yields
     * no result.
     */
    function Process(typeOf: TypeParser): (r: Option<Execution>)
      reads this
      ensures r.Some? ==> r.value.outputTable == GetStr(config, INVALIDATE_ITEMS_TABLE) && r.value.sql == GetStr(config, SQL)
      ensures r.Some? <==> typeOf(GetStr(config, PLUGIN_TYPE)).Some? && Dispatch(typeOf(GetStr(config, PLUGIN_TYPE)).value).Some?
      ensures r.Some? ==> var d := Dispatch(typeOf(GetStr(config, PLUGIN_TYPE)).value).value;
        r.value.executor == d.0 && r.value.connection == d.1
    {
      var outputTable := GetStr(config, INVALIDATE_ITEMS_TABLE);
      var sql := GetStr(config, SQL);
      match typeOf(GetStr(config, PLUGIN_TYPE))
      case None => None
      case Some(t) =>
        match Dispatch(t)
        case None => None
        case Some(d) => Some(Execution(d.0, d.1, sql, outputTable))
    }
  }
}
