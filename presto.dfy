/**
 * The Presto connection URL (`PrestoParameterConverter.getUrl`):
 * `jdbc:presto://host:port/catalog`, then `/database` when a database is
 * given, then `?properties` when properties are given.
 */
module Presto {
  import opened Common
  import opened Api

  const URL_PREFIX := "jdbc:presto://"

  /** `host:port`, each printed as `%s` prints it. */
  function Authority(parameter: Entries): string {
    Show(Lookup(parameter, HOST)) + ":" + Show(Lookup(parameter, PORT))
  }

  /** The `/`-separated parts after the prefix: the database part only when a database is given. */
  function PathParts(parameter: Entries, database: Option<string>): seq<string> {
    [Authority(parameter), Show(Lookup(parameter, CATALOG))] + (if IsEmpty(database) then [] else [database.value])
  }

  /** `getUrl`: `Err` is the `ClassCastException` of a database or properties value that is not a string. */
  function GetUrl(parameter: Entries): (r: Result<string, string>)
    ensures r.Err? <==> LookupString(parameter, DATABASE).Err? || LookupString(parameter, PROPERTIES).Err?
    ensures r.Ok? ==> StartsWith(r.value, URL_PREFIX)
    ensures r.Ok? ==>
      var base := URL_PREFIX + Join("/", PathParts(parameter, LookupString(parameter, DATABASE).value));
      var properties := LookupString(parameter, PROPERTIES).value;
      && (IsEmpty(properties) ==> r.value == base)
      && (!IsEmpty(properties) ==> r.value == base + "?" + properties.value)
  {
    match LookupString(parameter, DATABASE)
    case Err(e) => Err(e)
    case Ok(database) =>
      var url := URL_PREFIX + Join("/", PathParts(parameter, database));
      match LookupString(parameter, PROPERTIES)
      case Err(e) => Err(e)
      case Ok(properties) =>
        if !IsEmpty(properties) then Ok(url + "?" + properties.value) else Ok(url)
  }

  /**
   * When the parts hold no `/`, the path after the prefix splits back at the
   * slashes into the authority, the catalog and the database if one is given.
   */
  lemma PathSegments(parameter: Entries, database: Option<string>)
    requires '/' !in Authority(parameter) && '/' !in Show(Lookup(parameter, CATALOG))
    requires database.Some? ==> '/' !in database.value
    ensures Split(Join("/", PathParts(parameter, database)), '/') == PathParts(parameter, database)
    ensures |PathParts(parameter, database)| == 3 <==> !IsEmpty(database)
  {
    assert "/" == ['/'];
    SplitJoin(PathParts(parameter, database), '/');
  }
}
