/**
 * The server-side validation a job goes through before it is saved
 * (`JobServiceImpl`): duplicate-metric detection, fully-qualified entity
 * names, the suitability of each metric for its column, the attributes
 * copied from the first metric, the generated job and error-file names, and
 * the guard on writing error rows back into the checked datasource.
 */
module JobService {
  import opened Common
  import opened Api
  import JobConfiguration

  /** The `Status` codes (and Java exceptions) these checks raise. */
  datatype JobError =
    | NullPointer
    | ClassCast
    | CustomSqlMustHaveTable
    | JobParameterIsNull
    | DuplicateMetric
    | MultiTableAccuracyNotSupportLocalEngine
    | MetricJobRelatedEntityNotExist
    | EntityTypeNotExist
    | MetricNotSuitableEntityType
    | DatasourceNotSupportErrorDataOutputToSelf

  // ---------------------------------------------------------------------
  // Duplicate metrics

  /** `type_db_table_column`: the server's identity text, without the job id. */
  function ServerIdentityText(metricType: string, mp: Entries): string {
    metricType + "_" + ParamText(mp, DATABASE) + "_" + ParamText(mp, TABLE) + "_" + ParamText(mp, COLUMN)
  }

  /** The builder's identity text is the server's with the job id appended. */
  lemma BuilderTextExtendsServerText(metricType: string, mp: Entries, jobId: int)
    ensures JobConfiguration.IdentityText(metricType, mp, jobId) == ServerIdentityText(metricType, mp) + "_" + IntToString(jobId)
  {
  }

  /**
   * Different databases and tables can share the server's identity text, so
   * two metrics on different tables count as duplicates: `a_b`.`c` and `a`.`b_c`.
   */
  lemma IdentityTextAmbiguous()
    ensures var p := [(DATABASE, JText("a_b")), (TABLE, JText("c"))];
      var q := [(DATABASE, JText("a")), (TABLE, JText("b_c"))];
      && DistinctKeys(p) && DistinctKeys(q)
      && ParamText(p, DATABASE) != ParamText(q, DATABASE)
      && ServerIdentityText("column_null", p) == ServerIdentityText("column_null", q)
  {
    assert DATABASE[0] == 'd' && TABLE[0] == 't' && COLUMN[0] == 'c';
    LookupPair(DATABASE, JText("a_b"), TABLE, JText("c"), DATABASE);
    LookupPair(DATABASE, JText("a_b"), TABLE, JText("c"), TABLE);
    LookupPair(DATABASE, JText("a_b"), TABLE, JText("c"), COLUMN);
    LookupPair(DATABASE, JText("a"), TABLE, JText("b_c"), DATABASE);
    LookupPair(DATABASE, JText("a"), TABLE, JText("b_c"), TABLE);
    LookupPair(DATABASE, JText("a"), TABLE, JText("b_c"), COLUMN);
    assert |"a"| == 1 && |"a_b"| == 3;
    assert "a_b" == "a" + "_" + "b" && "b_c" == "b" + "_" + "c";
    UnderscoreShift("column_null", "a", "b", "c", Show(JNull));
  }

  /** Moving an underscore-joined part from one field to the next leaves the text alone. */
  lemma UnderscoreShift(m: string, x: string, y: string, z: string, n: string)
    ensures m + "_" + (x + "_" + y) + "_" + z + "_" + n == m + "_" + x + "_" + (y + "_" + z) + "_" + n
  {
  }

  /** Looking a key up in a two-entry map. */
  lemma LookupPair(a: string, va: JValue, b: string, vb: JValue, k: string)
    ensures Lookup([(a, va), (b, vb)], k) == if k == a then va else if k == b then vb else JNull
  {
    var es := [(a, va), (b, vb)];
    assert es[1..] == [(b, vb)] && es[1..][1..] == [];
  }

  /** The server's metric key: the full MD5 hex of the identity text. */
  function ServerMetricKey(p: BaseJobParameter, md5: Md5): (r: Option<HexDigest>)
    ensures r.Some? <==> p.metricParameter.Some?
    ensures r.Some? ==> |r.value| == 32 && r.value == md5(ServerIdentityText(p.metricType, p.metricParameter.value))
  {
    if p.metricParameter.None? then None else Some(md5(ServerIdentityText(p.metricType, p.metricParameter.value)))
  }

  /** The key ignores everything but type, database, table and column. */
  lemma ServerKeyDeterminedByIdentity(p: BaseJobParameter, q: BaseJobParameter, md5: Md5)
    requires p.metricParameter.Some? && q.metricParameter.Some?
    requires ServerIdentityText(p.metricType, p.metricParameter.value) == ServerIdentityText(q.metricType, q.metricParameter.value)
    ensures ServerMetricKey(p, md5) == ServerMetricKey(q, md5)
  {
  }

  /** The keys of the metrics, in order. */
  function ServerKeys(ps: seq<BaseJobParameter>, md5: Md5): (r: seq<string>)
    requires JobConfiguration.AllHaveParameters(ps)
    ensures |r| == |ps|
  {
    if ps == [] then []
    else
      ServerKeys(ps[..|ps| - 1], md5) + [ServerMetricKey(ps[|ps| - 1], md5).value]
  }

  /** The key at each position is that metric's server key. */
  lemma {:induction false} ServerKeysAt(ps: seq<BaseJobParameter>, md5: Md5)
    requires JobConfiguration.AllHaveParameters(ps)
    ensures forall i :: 0 <= i < |ps| ==> ServerKeys(ps, md5)[i] == ServerMetricKey(ps[i], md5).value
    decreases |ps|
  {
    if ps != [] {
      var init := ps[..|ps| - 1];
      ServerKeysAt(init, md5);
      forall i | 0 <= i < |ps| - 1 ensures ServerKeys(ps, md5)[i] == ServerMetricKey(ps[i], md5).value {
        assert init[i] == ps[i];
      }
    }
  }

  lemma ServerKeysExtend(ps: seq<BaseJobParameter>, i: int, md5: Md5)
    requires 0 <= i < |ps| && JobConfiguration.AllHaveParameters(ps[..i]) && ps[i].metricParameter.Some?
    ensures JobConfiguration.AllHaveParameters(ps[..i + 1])
    ensures ServerKeys(ps[..i + 1], md5) == ServerKeys(ps[..i], md5) + [ServerMetricKey(ps[i], md5).value]
  {
    assert ps[..i + 1][..i] == ps[..i];
  }

  /** Some value occurs twice. */
  predicate HasRepeat(s: seq<string>) {
    exists i, j :: 0 <= i < j < |s| && s[i] == s[j]
  }

  /** How often `k` occurs in `s`. */
  function Occurrences(s: seq<string>, k: string): nat {
    if s == [] then 0 else Occurrences(s[..|s| - 1], k) + (if s[|s| - 1] == k then 1 else 0)
  }

  lemma {:induction false} OccurrencesPositive(s: seq<string>, k: string)
    ensures Occurrences(s, k) > 0 <==> k in s
    decreases |s|
  {
    if s != [] {
      var t := s[..|s| - 1];
      OccurrencesPositive(t, k);
      assert s == t + [s[|s| - 1]];
      assert k in s <==> k in t || k == s[|s| - 1];
    }
  }

  /** The count map `checkDuplicateMetricInJob` builds: each key with its number of occurrences. */
  function Counts(s: seq<string>): map<string, nat> {
    if s == [] then map[]
    else
      var m := Counts(s[..|s| - 1]);
      var x := s[|s| - 1];
      m[x := if x in m then m[x] + 1 else 1]
  }

  lemma CountsSnoc(s: seq<string>, x: string)
    ensures Counts(s + [x]) == Counts(s)[x := if x in Counts(s) then Counts(s)[x] + 1 else 1]
  {
    assert (s + [x])[..|s|] == s;
  }

  lemma {:induction false} CountsAreOccurrences(s: seq<string>)
    ensures forall k :: k in Counts(s) <==> k in s
    ensures forall k :: k in Counts(s) ==> Counts(s)[k] == Occurrences(s, k)
    decreases |s|
  {
    if s != [] {
      var t := s[..|s| - 1];
      CountsAreOccurrences(t);
      assert s == t + [s[|s| - 1]];
      forall k ensures k in s <==> k in t || k == s[|s| - 1] {}
      OccurrencesPositive(t, s[|s| - 1]);
    }
  }

  /** A value repeats exactly when some value is counted more than once. */
  lemma {:induction false} RepeatIffCounted(s: seq<string>)
    ensures HasRepeat(s) <==> exists k :: k in s && Occurrences(s, k) > 1
    decreases |s|
  {
    if s != [] {
      var t := s[..|s| - 1];
      var x := s[|s| - 1];
      RepeatIffCounted(t);
      assert s == t + [x];
      assert HasRepeat(s) <==> HasRepeat(t) || x in t by {
        if HasRepeat(s) {
          var i, j :| 0 <= i < j < |s| && s[i] == s[j];
          if j < |s| - 1 { assert t[i] == t[j]; } else { assert t[i] == x; }
        }
        if x in t {
          var i :| 0 <= i < |t| && t[i] == x;
          assert s[i] == s[|s| - 1];
        }
        if HasRepeat(t) {
          var i, j :| 0 <= i < j < |t| && t[i] == t[j];
          assert s[i] == s[j];
        }
      }
      OccurrencesPositive(t, x);
      if HasRepeat(t) {
        var k :| k in t && Occurrences(t, k) > 1;
        assert k in s && Occurrences(s, k) > 1;
      } else if x in t {
        assert Occurrences(s, x) > 1;
      }
      if exists k :: k in s && Occurrences(s, k) > 1 {
        var k :| k in s && Occurrences(s, k) > 1;
        if k != x {
          assert k in t;
        } else {
          assert Occurrences(t, x) > 0;
        }
      }
    }
  }

  /** What the duplicate check decides. */
  datatype Check = Passed | Rejected(error: JobError)

  /**
   * A null metric-parameter map fails (NullPointerException); otherwise the
   * job is rejected exactly when two of its metrics share a server key.
   */
  function DuplicateCheck(ps: seq<BaseJobParameter>, md5: Md5): Check {
    if !JobConfiguration.AllHaveParameters(ps) then Rejected(NullPointer)
    else if HasRepeat(ServerKeys(ps, md5)) then Rejected(DuplicateMetric)
    else Passed
  }

  /** The job is rejected as a duplicate exactly when two different metrics share a server key. */
  lemma DuplicateIffSharedKey(ps: seq<BaseJobParameter>, md5: Md5)
    ensures DuplicateCheck(ps, md5) == Rejected(DuplicateMetric) <==>
      && JobConfiguration.AllHaveParameters(ps)
      && exists i, j :: 0 <= i < j < |ps| && ServerMetricKey(ps[i], md5) == ServerMetricKey(ps[j], md5)
  {
    if JobConfiguration.AllHaveParameters(ps) {
      ServerKeysAt(ps, md5);
      var keys := ServerKeys(ps, md5);
      if HasRepeat(keys) {
        var i, j :| 0 <= i < j < |keys| && keys[i] == keys[j];
        assert ServerMetricKey(ps[i], md5) == ServerMetricKey(ps[j], md5);
      }
      if exists i, j :: 0 <= i < j < |ps| && ServerMetricKey(ps[i], md5) == ServerMetricKey(ps[j], md5) {
        var i, j :| 0 <= i < j < |ps| && ServerMetricKey(ps[i], md5) == ServerMetricKey(ps[j], md5);
        assert keys[i] == keys[j];
      }
    }
  }

  /**
   * `checkDuplicateMetricInJob`: counts each key in a map, then rejects the
   * job when some key was counted more than once.
   */
  method CheckDuplicateMetricInJob(ps: seq<BaseJobParameter>, md5: Md5) returns (r: Check)
    ensures r == DuplicateCheck(ps, md5)
  {
    var metricKey2Count := CountServerKeys(ps, md5);
    if metricKey2Count.None? {
      return Rejected(NullPointer);
    }
    RepeatIffCountedTwice(ServerKeys(ps, md5));
    var duplicated := AnyCountedTwice(metricKey2Count.value);
    if duplicated {
      return Rejected(DuplicateMetric);
    }
    return Passed;
  }

  /**
   * The counting loop: the number of metrics for each server key, or `None`
   * for the NullPointerException of a null metric-parameter map.
   */
  method CountServerKeys(ps: seq<BaseJobParameter>, md5: Md5) returns (counts: Option<map<string, nat>>)
    ensures counts.None? <==> !JobConfiguration.AllHaveParameters(ps)
    ensures counts.Some? ==> counts.value == Counts(ServerKeys(ps, md5))
  {
    var metricKey2Count: map<string, nat> := map[];
    ghost var keys: seq<string> := [];
    var i := 0;
    while i < |ps|
      invariant 0 <= i <= |ps|
      invariant JobConfiguration.AllHaveParameters(ps[..i]) && keys == ServerKeys(ps[..i], md5)
      invariant metricKey2Count == Counts(keys)
    {
      if ps[i].metricParameter.None? {
        return None;
      }
      var metricKey := ServerMetricKey(ps[i], md5).value;
      ServerKeysExtend(ps, i, md5);
      CountsSnoc(keys, metricKey);
      if metricKey in metricKey2Count {
        metricKey2Count := metricKey2Count[metricKey := metricKey2Count[metricKey] + 1];
      } else {
        metricKey2Count := metricKey2Count[metricKey := 1];
      }
      keys := keys + [metricKey];
      i := i + 1;
    }
    assert ps[..|ps|] == ps;
    return Some(metricKey2Count);
  }

  /** A value repeats exactly when its count is above one. */
  lemma RepeatIffCountedTwice(s: seq<string>)
    ensures HasRepeat(s) <==> exists k :: k in Counts(s) && Counts(s)[k] > 1
  {
    CountsAreOccurrences(s);
    RepeatIffCounted(s);
    if HasRepeat(s) {
      var k :| k in s && Occurrences(s, k) > 1;
      assert k in Counts(s) && Counts(s)[k] > 1;
    }
    if exists k :: k in Counts(s) && Counts(s)[k] > 1 {
      var k :| k in Counts(s) && Counts(s)[k] > 1;
      assert k in s && Occurrences(s, k) > 1;
    }
  }

  /** The scan over the count map's entries: is some count above one? */
  method AnyCountedTwice(counts: map<string, nat>) returns (found: bool)
    ensures found <==> exists k :: k in counts && counts[k] > 1
  {
    var remaining := counts.Keys;
    while remaining != {}
      invariant remaining <= counts.Keys
      invariant forall k :: k in counts && k !in remaining ==> counts[k] <= 1
      decreases |remaining|
    {
      var k :| k in remaining;
      if counts[k] > 1 {
        return true;
      }
      remaining := remaining - {k};
    }
    return false;
  }

  // ---------------------------------------------------------------------
  // Fully-qualified names

  /** The database, table and column of a metric-parameter map, each cast to a string. */
  predicate CastsOk(mp: Entries) {
    LookupString(mp, DATABASE).Ok? && LookupString(mp, TABLE).Ok? && LookupString(mp, COLUMN).Ok?
  }

  /** The string value under `k` (null when absent), after a successful cast. */
  function Text(mp: Entries, k: string): Option<string>
    requires LookupString(mp, k).Ok?
  {
    LookupString(mp, k).value
  }

  /** `fqn` with `.column` appended when the column is non-empty. */
  function WithColumn(fqn: string, column: Option<string>): string {
    if IsEmpty(column) then fqn else fqn + "." + column.value
  }

  /**
   * `getFQN`: null for an empty database; `db.table`, or `db.` plus the
   * first table of the custom SQL when the table is empty; then `.column`
   * when the column is non-empty.
   */
  function GetFQN(p: BaseJobParameter, extractTables: Option<string> -> seq<string>): (r: Result<Option<string>, JobError>)
    ensures r == Err(NullPointer) <==> p.metricParameter.None?
    ensures p.metricParameter.Some? && !CastsOk(p.metricParameter.value) ==> r == Err(ClassCast)
    ensures p.metricParameter.Some? && CastsOk(p.metricParameter.value) ==>
      var mp := p.metricParameter.value;
      && (IsEmpty(Text(mp, DATABASE)) ==> r == Ok(None))
      && (!IsEmpty(Text(mp, DATABASE)) && !IsEmpty(Text(mp, TABLE)) ==>
            r == Ok(Some(WithColumn(Text(mp, DATABASE).value + "." + Text(mp, TABLE).value, Text(mp, COLUMN)))))
      && (!IsEmpty(Text(mp, DATABASE)) && IsEmpty(Text(mp, TABLE)) ==>
            (r == Err(CustomSqlMustHaveTable) <==>
               LookupString(mp, ACTUAL_AGGREGATE_SQL).Ok? && extractTables(Text(mp, ACTUAL_AGGREGATE_SQL)) == []))
      && (!IsEmpty(Text(mp, DATABASE)) && IsEmpty(Text(mp, TABLE)) && LookupString(mp, ACTUAL_AGGREGATE_SQL).Err? ==>
            r == Err(ClassCast))
      && (!IsEmpty(Text(mp, DATABASE)) && IsEmpty(Text(mp, TABLE)) && LookupString(mp, ACTUAL_AGGREGATE_SQL).Ok?
          && extractTables(Text(mp, ACTUAL_AGGREGATE_SQL)) != [] ==>
            r == Ok(Some(WithColumn(Text(mp, DATABASE).value + "." + extractTables(Text(mp, ACTUAL_AGGREGATE_SQL))[0], Text(mp, COLUMN)))))
    ensures r.Ok? && r.value.Some? ==> StartsWith(r.value.value, Text(p.metricParameter.value, DATABASE).value + ".")
  {
    if p.metricParameter.None? then Err(NullPointer)
    else
      var mp := p.metricParameter.value;
      if !CastsOk(mp) then Err(ClassCast)
      else
        var database := Text(mp, DATABASE);
        var table := Text(mp, TABLE);
        var column := Text(mp, COLUMN);
        if IsEmpty(database) then Ok(None)
        else if IsEmpty(table) then
          match LookupString(mp, ACTUAL_AGGREGATE_SQL)
          case Err(_) => Err(ClassCast)
          case Ok(sql) =>
            var tables := extractTables(sql);
            if tables == [] then Err(CustomSqlMustHaveTable)
            else Ok(Some(WithColumn(database.value + "." + tables[0], column)))
        else Ok(Some(WithColumn(database.value + "." + table.value, column)))
  }

  /** A dotted name of dot-free parts splits back into its parts. */
  lemma {:induction false} SplitName(database: string, table: string, column: Option<string>)
    requires '.' !in database && '.' !in table && (column.Some? ==> '.' !in column.value)
    ensures Split(WithColumn(database + "." + table, column), '.')
      == [database, table] + (if IsEmpty(column) then [] else [column.value])
  {
    if IsEmpty(column) {
      SplitPair(database, table);
    } else {
      SplitTriple(database, table, column.value);
    }
  }

  lemma SplitPair(database: string, table: string)
    requires '.' !in database && '.' !in table
    ensures Split(database + "." + table, '.') == [database, table]
  {
    SplitWhole(table, '.');
    SplitJoined(database, table, '.');
    assert database + "." + table == database + ['.'] + table;
  }

  lemma SplitTriple(database: string, table: string, c: string)
    requires '.' !in database && '.' !in table && '.' !in c
    ensures Split(database + "." + table + "." + c, '.') == [database, table, c]
  {
    var rest := table + ['.'] + c;
    SplitPair(table, c);
    SplitJoined(database, rest, '.');
    JoinAssoc(database, table, c, '.');
    assert "." == ['.'];
  }

  lemma JoinAssoc(a: string, b: string, c: string, sep: char)
    ensures a + [sep] + b + [sep] + c == a + [sep] + (b + [sep] + c)
  {
  }

  /** Names without dots are recovered from their FQN by splitting it at the dots. */
  lemma FqnSplits(p: BaseJobParameter, extractTables: Option<string> -> seq<string>)
    requires p.metricParameter.Some? && CastsOk(p.metricParameter.value)
    requires var mp := p.metricParameter.value;
      && !IsEmpty(Text(mp, DATABASE)) && !IsEmpty(Text(mp, TABLE))
      && '.' !in Text(mp, DATABASE).value && '.' !in Text(mp, TABLE).value
      && (Text(mp, COLUMN).Some? ==> '.' !in Text(mp, COLUMN).value)
    ensures var mp := p.metricParameter.value;
      && GetFQN(p, extractTables).Ok? && GetFQN(p, extractTables).value.Some?
      && Split(GetFQN(p, extractTables).value.value, '.')
         == [Text(mp, DATABASE).value, Text(mp, TABLE).value] + (if IsEmpty(Text(mp, COLUMN)) then [] else [Text(mp, COLUMN).value])
  {
    var mp := p.metricParameter.value;
    SplitName(Text(mp, DATABASE).value, Text(mp, TABLE).value, Text(mp, COLUMN));
  }

  /** `isColumn`: the column, cast to a string, is non-empty. */
  function IsColumn(p: BaseJobParameter): (r: Result<bool, JobError>)
    ensures r == Err(NullPointer) <==> p.metricParameter.None?
    ensures r == Err(ClassCast) <==> p.metricParameter.Some? && LookupString(p.metricParameter.value, COLUMN).Err?
    ensures r.Ok? ==> (r.value <==> !IsEmpty(Text(p.metricParameter.value, COLUMN)))
  {
    if p.metricParameter.None? then Err(NullPointer)
    else
      match LookupString(p.metricParameter.value, COLUMN)
      case Err(_) => Err(ClassCast)
      case Ok(column) => Ok(!IsEmpty(column))
  }

  /** For a column metric, the FQN names the column last. */
  lemma ColumnFqnEndsWithColumn(p: BaseJobParameter, extractTables: Option<string> -> seq<string>)
    requires IsColumn(p) == Ok(true)
    requires GetFQN(p, extractTables).Ok? && GetFQN(p, extractTables).value.Some?
    ensures EndsWith(GetFQN(p, extractTables).value.value, "." + Text(p.metricParameter.value, COLUMN).value)
  {
    var mp := p.metricParameter.value;
    assert CastsOk(mp);
    var database := Text(mp, DATABASE).value;
    if IsEmpty(Text(mp, TABLE)) {
      var tables := extractTables(LookupString(mp, ACTUAL_AGGREGATE_SQL).value);
      WithColumnEndsWithColumn(database + "." + tables[0], Text(mp, COLUMN));
    } else {
      WithColumnEndsWithColumn(database + "." + Text(mp, TABLE).value, Text(mp, COLUMN));
    }
  }

  lemma WithColumnEndsWithColumn(fqn: string, column: Option<string>)
    requires !IsEmpty(column)
    ensures EndsWith(WithColumn(fqn, column), "." + column.value)
  {
    EndsWithConcat(fqn, "." + column.value);
  }

  // ---------------------------------------------------------------------
  // Suitability

  datatype CatalogEntity = CatalogEntity(properties: Option<string>)

  datatype ColumnInfo = ColumnInfo(columnType: Option<string>)

  /** The catalog, the JSON parser, the type normaliser and the metric registry. */
  datatype SuitabilityEnv = SuitabilityEnv(
    catalog: (int, string) -> Option<CatalogEntity>,
    parseColumnInfo: string -> Option<ColumnInfo>,
    dataTypeOf: Option<string> -> Option<DataVinesDataType>,
    metricPlugins: string -> Option<SqlMetric>,
    extractTables: Option<string> -> seq<string>)

  /** What one parameter's check decides: go on, stop checking (pass), or fail. */
  datatype Verdict = Continue | Stop | Fail(error: JobError)

  /** A multi-table accuracy metric across two datasources on the local engine. */
  predicate MultiTableOnLocal(datasourceId: int, datasourceId2: int, engine: Option<string>, p: BaseJobParameter) {
    && datasourceId2 != 0 && EqualsIgnoreCase(LOCAL, engine)
    && EqualsIgnoreCase(MULTI_TABLE_ACCURACY, Some(p.metricType)) && datasourceId != datasourceId2
  }

  /** The body of `isMetricSuitable`'s loop for one parameter. */
  function ParameterVerdict(datasourceId: int, datasourceId2: int, engine: Option<string>, p: BaseJobParameter, env: SuitabilityEnv): Verdict {
    if MultiTableOnLocal(datasourceId, datasourceId2, engine, p) then Fail(MultiTableAccuracyNotSupportLocalEngine)
    else
      match GetFQN(p, env.extractTables)
      case Err(e) => Fail(e)
      case Ok(fqn) =>
        if IsEmpty(fqn) then Fail(MetricJobRelatedEntityNotExist)
        else
          match IsColumn(p)
          case Err(e) => Fail(e)
          case Ok(isColumn) =>
            if !isColumn then Stop
            else
              var entity := env.catalog(datasourceId, fqn.value);
              if entity.None? then Stop
              else if IsEmpty(entity.value.properties) then Fail(EntityTypeNotExist)
              else
                var info := env.parseColumnInfo(entity.value.properties.value);
                if info.None? then Continue
                else
                  var dataType := env.dataTypeOf(info.value.columnType);
                  if dataType.None? then Fail(EntityTypeNotExist)
                  else
                    var metric := env.metricPlugins(p.metricType);
                    if metric.None? then Fail(MetricJobRelatedEntityNotExist)
                    else if dataType.value !in metric.value.suitableType then Fail(MetricNotSuitableEntityType)
                    else Continue
  }

  /** The verdict rules for one parameter. */
  lemma VerdictRules(datasourceId: int, datasourceId2: int, engine: Option<string>, p: BaseJobParameter, env: SuitabilityEnv)
    ensures var v := ParameterVerdict(datasourceId, datasourceId2, engine, p, env);
      && (v == Fail(MultiTableAccuracyNotSupportLocalEngine) <==> MultiTableOnLocal(datasourceId, datasourceId2, engine, p))
      && ((!MultiTableOnLocal(datasourceId, datasourceId2, engine, p) && GetFQN(p, env.extractTables) == Ok(None))
            ==> v == Fail(MetricJobRelatedEntityNotExist))
      && ((&& !MultiTableOnLocal(datasourceId, datasourceId2, engine, p) && IsColumn(p) == Ok(false)
           && GetFQN(p, env.extractTables).Ok? && !IsEmpty(GetFQN(p, env.extractTables).value))
            ==> v == Stop)
      && (v == Stop ==> IsColumn(p) == Ok(false) || env.catalog(datasourceId, GetFQN(p, env.extractTables).value.value).None?)
      && (ColumnEntityFound(datasourceId, datasourceId2, engine, p, env) ==> ColumnVerdict(datasourceId, datasourceId2, engine, p, env, v))
  {
    if ColumnEntityFound(datasourceId, datasourceId2, engine, p, env) {
      ColumnVerdictRules(datasourceId, datasourceId2, engine, p, env);
    }
  }

  /** The verdict rules once the checks before the catalog lookup let a column parameter through. */
  lemma ColumnVerdictRules(datasourceId: int, datasourceId2: int, engine: Option<string>, p: BaseJobParameter, env: SuitabilityEnv)
    requires ColumnEntityFound(datasourceId, datasourceId2, engine, p, env)
    ensures ColumnVerdict(datasourceId, datasourceId2, engine, p, env, ParameterVerdict(datasourceId, datasourceId2, engine, p, env))
  {
  }

  /**
   * The catalog steps of a column parameter's check: a missing entity stops,
   * empty properties and an unknown type are errors, unparsable column info
   * goes on, and a missing metric plugin is an error.
   */
  predicate ColumnVerdict(datasourceId: int, datasourceId2: int, engine: Option<string>, p: BaseJobParameter, env: SuitabilityEnv, v: Verdict)
    requires ColumnEntityFound(datasourceId, datasourceId2, engine, p, env)
  {
            var fqn := GetFQN(p, env.extractTables).value.value;
            var entity := env.catalog(datasourceId, fqn);
            && (entity.None? ==> v == Stop)
            && (entity.Some? && IsEmpty(entity.value.properties) ==> v == Fail(EntityTypeNotExist))
            && (entity.Some? && !IsEmpty(entity.value.properties) ==>
                  var info := env.parseColumnInfo(entity.value.properties.value);
                  && (info.None? ==> v == Continue)
                  && (info.Some? && env.dataTypeOf(info.value.columnType).None? ==> v == Fail(EntityTypeNotExist))
                  && (info.Some? && env.dataTypeOf(info.value.columnType).Some? && env.metricPlugins(p.metricType).None? ==>
                        v == Fail(MetricJobRelatedEntityNotExist)))
  }

  /**
   * The checks before the catalog lookup let the parameter through: not the
   * local multi-table rule, a non-empty FQN, and a column metric.
   */
  predicate ColumnEntityFound(datasourceId: int, datasourceId2: int, engine: Option<string>, p: BaseJobParameter, env: SuitabilityEnv) {
    && !MultiTableOnLocal(datasourceId, datasourceId2, engine, p)
    && GetFQN(p, env.extractTables).Ok? && !IsEmpty(GetFQN(p, env.extractTables).value)
    && IsColumn(p) == Ok(true)
  }

  /**
   * A type the metric does not list as suitable is an error, once the column
   * entity and its type were found.
   */
  lemma UnsuitableTypeRejected(datasourceId: int, datasourceId2: int, engine: Option<string>, p: BaseJobParameter, env: SuitabilityEnv,
                               fqn: string, info: ColumnInfo, metric: SqlMetric, dataType: DataVinesDataType)
    requires !MultiTableOnLocal(datasourceId, datasourceId2, engine, p)
    requires GetFQN(p, env.extractTables) == Ok(Some(fqn)) && fqn != "" && IsColumn(p) == Ok(true)
    requires env.catalog(datasourceId, fqn).Some? && !IsEmpty(env.catalog(datasourceId, fqn).value.properties)
    requires env.parseColumnInfo(env.catalog(datasourceId, fqn).value.properties.value) == Some(info)
    requires env.dataTypeOf(info.columnType) == Some(dataType)
    requires env.metricPlugins(p.metricType) == Some(metric)
    ensures ParameterVerdict(datasourceId, datasourceId2, engine, p, env) ==
      (if dataType in metric.suitableType then Continue else Fail(MetricNotSuitableEntityType))
  {
  }

  /** The first verdict other than Continue decides; Stop and running out of verdicts pass. */
  function Decide(vs: seq<Verdict>): Check {
    if vs == [] then Passed
    else
      match vs[0]
      case Continue => Decide(vs[1..])
      case Stop => Passed
      case Fail(e) => Rejected(e)
  }

  /** The verdict of each parameter, in order. */
  function Verdicts(datasourceId: int, datasourceId2: int, engine: Option<string>, ps: seq<BaseJobParameter>, env: SuitabilityEnv): (vs: seq<Verdict>)
    ensures |vs| == |ps|
    ensures forall i :: 0 <= i < |ps| ==> vs[i] == ParameterVerdict(datasourceId, datasourceId2, engine, ps[i], env)
  {
    seq(|ps|, i requires 0 <= i < |ps| => ParameterVerdict(datasourceId, datasourceId2, engine, ps[i], env))
  }

  /**
   * `isMetricSuitable`: the verdicts in parameter order decide.  Verdicts are
   * pure here, so those after the deciding one make no difference.
   */
  function Suitability(datasourceId: int, datasourceId2: int, engine: Option<string>, ps: seq<BaseJobParameter>, env: SuitabilityEnv): Check {
    Decide(Verdicts(datasourceId, datasourceId2, engine, ps, env))
  }

  lemma {:induction false} DecideFirst(vs: seq<Verdict>, i: int)
    requires 0 <= i <= |vs|
    requires forall j :: 0 <= j < i ==> vs[j] == Continue
    ensures i == |vs| ==> Decide(vs) == Passed
    ensures i < |vs| && vs[i] != Continue ==> Decide(vs) == (if vs[i] == Stop then Passed else Rejected(vs[i].error))
    decreases i
  {
    if i > 0 {
      assert vs[0] == Continue;
      DecideFirst(vs[1..], i - 1);
    }
  }

  /** The first parameter whose verdict is not Continue decides; when there is none the job passes. */
  lemma SuitabilityFirstDecides(datasourceId: int, datasourceId2: int, engine: Option<string>, ps: seq<BaseJobParameter>, env: SuitabilityEnv, i: int)
    requires 0 <= i <= |ps|
    requires forall j :: 0 <= j < i ==> ParameterVerdict(datasourceId, datasourceId2, engine, ps[j], env) == Continue
    ensures i == |ps| ==> Suitability(datasourceId, datasourceId2, engine, ps, env) == Passed
    ensures i < |ps| ==>
      var v := ParameterVerdict(datasourceId, datasourceId2, engine, ps[i], env);
      v != Continue ==> Suitability(datasourceId, datasourceId2, engine, ps, env) == (if v == Stop then Passed else Rejected(v.error))
  {
    DecideFirst(Verdicts(datasourceId, datasourceId2, engine, ps, env), i);
  }

  /**
   * A multi-table accuracy metric over two datasources on the local engine
   * rejects the job, provided every metric before it passed its own check.
   */
  lemma LocalEngineRejectsMultiTable(datasourceId: int, datasourceId2: int, engine: Option<string>, ps: seq<BaseJobParameter>, env: SuitabilityEnv, i: int)
    requires 0 <= i < |ps|
    requires forall j :: 0 <= j < i ==> ParameterVerdict(datasourceId, datasourceId2, engine, ps[j], env) == Continue
    requires MultiTableOnLocal(datasourceId, datasourceId2, engine, ps[i])
    ensures Suitability(datasourceId, datasourceId2, engine, ps, env) == Rejected(MultiTableAccuracyNotSupportLocalEngine)
  {
    SuitabilityFirstDecides(datasourceId, datasourceId2, engine, ps, env, i);
  }

  /** After a parameter that stops the check, later parameters are never looked at. */
  lemma StopIgnoresRest(datasourceId: int, datasourceId2: int, engine: Option<string>, ps: seq<BaseJobParameter>, qs: seq<BaseJobParameter>, env: SuitabilityEnv)
    requires ps != [] && ParameterVerdict(datasourceId, datasourceId2, engine, ps[|ps| - 1], env) == Stop
    requires forall j :: 0 <= j < |ps| - 1 ==> ParameterVerdict(datasourceId, datasourceId2, engine, ps[j], env) == Continue
    ensures Suitability(datasourceId, datasourceId2, engine, ps + qs, env) == Passed
  {
    var s := ps + qs;
    forall j | 0 <= j < |ps| - 1 ensures ParameterVerdict(datasourceId, datasourceId2, engine, s[j], env) == Continue {
      assert s[j] == ps[j];
    }
    assert s[|ps| - 1] == ps[|ps| - 1];
    SuitabilityFirstDecides(datasourceId, datasourceId2, engine, s, env, |ps| - 1);
  }

  /** The scan of `isMetricSuitable`: the verdicts in order, returning early on a stop or an error. */
  method FirstDecisive(verdicts: seq<Verdict>) returns (r: Check)
    ensures r == Decide(verdicts)
  {
    var i := 0;
    while i < |verdicts|
      invariant 0 <= i <= |verdicts|
      invariant Decide(verdicts[i..]) == Decide(verdicts)
    {
      var verdict := verdicts[i];
      assert verdicts[i..][0] == verdict && verdicts[i..][1..] == verdicts[i + 1..];
      if verdict.Fail? {
        return Rejected(verdict.error);
      }
      if verdict == Stop {
        return Passed;
      }
      i := i + 1;
    }
    return Passed;
  }

  /**
   * `isMetricSuitable`: checks each parameter in order and lets the first
   * verdict other than Continue decide.
   */
  method IsMetricSuitable(datasourceId: int, datasourceId2: int, engine: Option<string>, ps: seq<BaseJobParameter>, env: SuitabilityEnv) returns (r: Check)
    ensures r == Suitability(datasourceId, datasourceId2, engine, ps, env)
  {
    if ps == [] {
      return Passed;
    }
    r := FirstDecisive(Verdicts(datasourceId, datasourceId2, engine, ps, env));
  }

  // ---------------------------------------------------------------------
  // Job attributes and names

  /** The job entity fields `setJobAttribute` writes. */
  class Job {
    var schemaName: Option<string>
    var tableName: Option<string>
    var columnName: Option<string>
    var metricType: Option<string>

    constructor ()
      ensures schemaName.None? && tableName.None? && columnName.None? && metricType.None?
    {
      schemaName := None;
      tableName := None;
      columnName := None;
      metricType := None;
    }
  }

  /**
   * `setJobAttribute`: copies the first metric's database, table, column and
   * type into the job and returns the list holding its FQN; an empty list
   * leaves the job alone and returns an empty list.
   */
  method SetJobAttribute(job: Job, ps: seq<BaseJobParameter>, extractTables: Option<string> -> seq<string>)
    returns (r: Result<seq<Option<string>>, JobError>)
    modifies job
    ensures ps == [] ==> r == Ok([]) && unchanged(job)
    ensures r.Ok? ==> |r.value| <= 1
    ensures ps != [] && ps[0].metricParameter.None? ==> r == Err(NullPointer) && unchanged(job)
    ensures ps != [] && ps[0].metricParameter.Some? && !CastsOk(ps[0].metricParameter.value) ==> r == Err(ClassCast)
    // A failed cast leaves the fields written before it in place.
    ensures ps != [] && ps[0].metricParameter.Some? && LookupString(ps[0].metricParameter.value, DATABASE).Err? ==> unchanged(job)
    ensures ps != [] && ps[0].metricParameter.Some? && LookupString(ps[0].metricParameter.value, DATABASE).Ok?
            && LookupString(ps[0].metricParameter.value, TABLE).Err? ==>
      && job.schemaName == Text(ps[0].metricParameter.value, DATABASE)
      && job.tableName == old(job.tableName) && job.columnName == old(job.columnName) && job.metricType == old(job.metricType)
    ensures ps != [] && ps[0].metricParameter.Some? && LookupString(ps[0].metricParameter.value, DATABASE).Ok?
            && LookupString(ps[0].metricParameter.value, TABLE).Ok? && LookupString(ps[0].metricParameter.value, COLUMN).Err? ==>
      && job.schemaName == Text(ps[0].metricParameter.value, DATABASE) && job.tableName == Text(ps[0].metricParameter.value, TABLE)
      && job.columnName == old(job.columnName) && job.metricType == old(job.metricType)
    ensures ps != [] && ps[0].metricParameter.Some? && CastsOk(ps[0].metricParameter.value) ==>
      var mp := ps[0].metricParameter.value;
      && job.schemaName == Text(mp, DATABASE) && job.tableName == Text(mp, TABLE)
      && job.columnName == Text(mp, COLUMN) && job.metricType == Some(ps[0].metricType)
      && r == (match GetFQN(ps[0], extractTables) case Ok(fqn) => Ok([fqn]) case Err(e) => Err(e))
  {
    var fqnList: seq<Option<string>> := [];
    if ps != [] {
      var p := ps[0];
      if p.metricParameter.None? {
        return Err(NullPointer);
      }
      var mp := p.metricParameter.value;
      var database := LookupString(mp, DATABASE);
      if database.Err? {
        return Err(ClassCast);
      }
      job.schemaName := database.value;
      var table := LookupString(mp, TABLE);
      if table.Err? {
        return Err(ClassCast);
      }
      job.tableName := table.value;
      var column := LookupString(mp, COLUMN);
      if column.Err? {
        return Err(ClassCast);
      }
      job.columnName := column.value;
      job.metricType := Some(p.metricType);
      var fqn := GetFQN(p, extractTables);
      if fqn.Err? {
        return Err(fqn.error);
      }
      fqnList := fqnList + [fqn.value];
      assert fqnList == [fqn.value];
    }
    return Ok(fqnList);
  }

  datatype JobType = DataQuality | DataProfile | DataReconciliation | OtherJobType

  /** The description of the data-profile job type. */
  const DATA_PROFILE_DESCRIPTION := "data_profile"

  /** True when the parameter list and the first metric-parameter map are non-empty (`MapUtils.isEmpty`). */
  predicate HasFirstParameters(ps: seq<BaseJobParameter>) {
    ps != [] && ps[0].metricParameter.Some? && ps[0].metricParameter.value != []
  }

  /**
   * `getJobName` over the parsed parameter list: the result formula's symbol
   * comes from the formula registry, the clock is `now`.
   */
  function GetJobName(jobType: JobType, ps: seq<BaseJobParameter>, formulaSymbol: JValue -> Option<string>, now: int): (r: Result<string, JobError>)
    ensures !HasFirstParameters(ps) ==> r == Err(JobParameterIsNull)
    ensures HasFirstParameters(ps) && CastsOk(ps[0].metricParameter.value) ==>
      var p := ps[0];
      var mp := p.metricParameter.value;
      var symbol := formulaSymbol(p.resultFormula);
      && ((jobType == DataQuality || jobType == DataReconciliation) && symbol.Some? ==>
            r == Ok(Upper(p.metricType) + "(" + symbol.value + ")"))
      && ((jobType == DataQuality || jobType == DataReconciliation) && symbol.None? ==> r == Err(NullPointer))
      && (jobType == DataProfile ==>
            r == Ok(DATA_PROFILE_DESCRIPTION + "(" + ShowStr(Text(mp, DATABASE)) + "." + ShowStr(Text(mp, TABLE)) + ")"))
    ensures HasFirstParameters(ps) && !CastsOk(ps[0].metricParameter.value) ==> r == Err(ClassCast)
    ensures r.Ok? && jobType != OtherJobType ==> EndsWith(r.value, ")")
  {
    if !HasFirstParameters(ps) then Err(JobParameterIsNull)
    else
      var p := ps[0];
      var mp := p.metricParameter.value;
      var symbol := formulaSymbol(p.resultFormula);
      if !CastsOk(mp) then Err(ClassCast)
      else
        var database := ShowStr(Text(mp, DATABASE));
        var table := ShowStr(Text(mp, TABLE));
        var column := ShowStr(Text(mp, COLUMN));
        match jobType
        case DataQuality => if symbol.None? then Err(NullPointer) else Ok(Upper(p.metricType) + "(" + symbol.value + ")")
        case DataProfile => Ok(DATA_PROFILE_DESCRIPTION + "(" + database + "." + table + ")")
        case DataReconciliation => if symbol.None? then Err(NullPointer) else Ok(Upper(p.metricType) + "(" + symbol.value + ")")
        case OtherJobType => Ok("JOB[" + database + "." + table + "." + column + "]" + IntToString(now))
  }

  /** `getErrorDataFileName`: `lower(metric)_ts`, or `lower(metric)_column_ts` for a column metric. */
  function GetErrorDataFileName(ps: seq<BaseJobParameter>, now: int): (r: Result<string, JobError>)
    ensures !HasFirstParameters(ps) ==> r == Err(JobParameterIsNull)
    ensures HasFirstParameters(ps) ==> (r == Err(ClassCast) <==> LookupString(ps[0].metricParameter.value, COLUMN).Err?)
    ensures r.Ok? || r == Err(ClassCast) || r == Err(JobParameterIsNull)
  {
    if !HasFirstParameters(ps) then Err(JobParameterIsNull)
    else
      var metric := Lower(ps[0].metricType);
      match LookupString(ps[0].metricParameter.value, COLUMN)
      case Err(_) => Err(ClassCast)
      case Ok(column) =>
        if IsEmpty(column) then Ok(metric + "_" + IntToString(now))
        else Ok(metric + "_" + column.value + "_" + IntToString(now))
  }

  /**
   * The file name starts with the lower-cased metric type and ends with the
   * timestamp, each set off by an underscore; a column metric names its
   * column between the two.
   */
  lemma ErrorDataFileNameShape(ps: seq<BaseJobParameter>, now: int)
    requires HasFirstParameters(ps) && LookupString(ps[0].metricParameter.value, COLUMN).Ok?
    ensures var r := GetErrorDataFileName(ps, now);
      var column := Text(ps[0].metricParameter.value, COLUMN);
      && r.Ok?
      && StartsWith(r.value, Lower(ps[0].metricType) + "_")
      && EndsWith(r.value, "_" + IntToString(now))
      && (!IsEmpty(column) ==>
            && OccursAt(r.value, "_" + column.value + "_", |ps[0].metricType|)
            && |r.value| == |ps[0].metricType| + |column.value| + |IntToString(now)| + 2)
      && (IsEmpty(column) ==> |r.value| == |ps[0].metricType| + 1 + |IntToString(now)|)
  {
    FileNameParts(Lower(ps[0].metricType), Text(ps[0].metricParameter.value, COLUMN), IntToString(now));
  }

  /** The string facts behind `ErrorDataFileNameShape`. */
  lemma FileNameParts(metric: string, column: Option<string>, ts: string)
    ensures var name := if IsEmpty(column) then metric + "_" + ts else metric + "_" + column.value + "_" + ts;
      && StartsWith(name, metric + "_")
      && EndsWith(name, "_" + ts)
      && (!IsEmpty(column) ==>
            && OccursAt(name, "_" + column.value + "_", |metric|)
            && |name| == |metric| + |column.value| + |ts| + 2)
      && (IsEmpty(column) ==> |name| == |metric| + 1 + |ts|)
  {
    if IsEmpty(column) {
      EndsWithConcat(metric, "_" + ts);
      assert metric + "_" + ts == metric + ("_" + ts);
    } else {
      var name := metric + "_" + column.value + "_" + ts;
      assert name == metric + ("_" + column.value + "_") + ts;
      assert name[|metric|..|metric| + |column.value| + 2] == "_" + column.value + "_";
      assert name == (metric + "_" + column.value) + ("_" + ts);
      EndsWithConcat(metric + "_" + column.value, "_" + ts);
    }
  }

  // ---------------------------------------------------------------------
  // Error output to the checked datasource

  datatype DataSource = DataSource(dataSourceType: Option<string>)

  /**
   * The guard in `create` and `update`: asking for error rows to be written
   * back into an existing datasource fails when its connector factory is
   * missing or its dialect cannot write invalid rows to itself.
   */
  function SelfOutputGuard(outputToDataSource: Option<bool>, dataSource: Option<DataSource>, reg: FactoryRegistry): (r: Check)
    ensures r == Rejected(DatasourceNotSupportErrorDataOutputToSelf) || r == Passed
    ensures r.Rejected? <==>
      && outputToDataSource == Some(true) && dataSource.Some?
      && (reg(dataSource.value.dataSourceType).None? || !reg(dataSource.value.dataSourceType).value.invalidateItemCanOutputToSelf)
  {
    if outputToDataSource.Some? && outputToDataSource.value && dataSource.Some? then
      var factory := reg(dataSource.value.dataSourceType);
      if factory.None? || !factory.value.invalidateItemCanOutputToSelf then Rejected(DatasourceNotSupportErrorDataOutputToSelf)
      else Passed
    else Passed
  }
}
