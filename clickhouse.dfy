/**
 * The ClickHouse column-type converter (`ClickHouseTypeConverter`): an empty
 * type name is an error, the two decimal names map to big decimals whatever
 * their letter case, and every other name goes to the generic JDBC
 * converter unchanged.
 */
module ClickHouse {
  import opened Common

  /** The engine's column types, reduced to the one this converter names itself. */
  datatype DataType = BigDecimalType | OtherDataType(name: string)

  /** The generic JDBC converter this one falls back on (`super.convert`). */
  type TypeConverter = string -> DataType

  const UNSUPPORTED_MESSAGE := "sql type id null error"

  /** `DECIMAL32` or `DECIMAL64` once upper-cased. */
  predicate IsDecimalName(originType: string) {
    Upper(originType) == "DECIMAL32" || Upper(originType) == "DECIMAL64"
  }

  /** `convert`: `Err` is the `UnsupportedOperationException` for a null or empty name. */
  function Convert(originType: Option<string>, superConvert: TypeConverter): (r: Result<DataType, string>)
    ensures r.Err? <==> IsEmpty(originType)
    ensures r.Err? ==> r.error == UNSUPPORTED_MESSAGE
    ensures !IsEmpty(originType) && IsDecimalName(originType.value) ==> r == Ok(BigDecimalType)
    ensures !IsEmpty(originType) && !IsDecimalName(originType.value) ==> r == Ok(superConvert(originType.value))
  {
    if IsEmpty(originType) then Err(UNSUPPORTED_MESSAGE)
    else
      var name := Upper(originType.value);
      if name == "DECIMAL32" || name == "DECIMAL64" then Ok(BigDecimalType)
      else Ok(superConvert(originType.value))
  }

  /** Names that differ only in the case of their letters convert alike when they are decimal names. */
  lemma DecimalCaseIndependent(s: string, t: string, superConvert: TypeConverter)
    requires Upper(s) == Upper(t) && IsDecimalName(s)
    ensures Convert(Some(s), superConvert) == Convert(Some(t), superConvert) == Ok(BigDecimalType)
  {
    assert |s| == |Upper(s)| > 0;
    assert |t| == |Upper(t)| > 0;
  }
}
