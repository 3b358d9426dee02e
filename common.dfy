/**
 * Values and string helpers shared by every part of the model: Java's
 * nullable strings and object-valued parameter bags, the small
 * `StringUtils`-style predicates the sources use, and the substring
 * vocabulary (prefix, suffix, containment, splitting) the contracts speak in.
 */
module Common {

  datatype Option<+T> = None | Some(value: T)

  datatype Result<+T, +E> = Ok(value: T) | Err(error: E)

  /** One value of a Java `Map<String, Object>` parameter bag. */
  datatype JValue = JNull | JText(text: string) | JInt(n: int) | JBool(b: bool)

  /** The decimal text of an integer, as `String.valueOf(long)` prints it. */
  function NatToString(n: nat): (r: string)
    ensures |r| > 0
    ensures forall i :: 0 <= i < |r| ==> '0' <= r[i] <= '9'
    decreases n
  {
    var d := [(48 + n % 10) as char];
    if n < 10 then d else NatToString(n / 10) + d
  }

  function IntToString(n: int): (r: string)
    ensures |r| > 0
  {
    if n < 0 then "-" + NatToString(-n) else NatToString(n)
  }

  /** `String.valueOf(Object)`: a null reference prints as "null". */
  function Show(v: JValue): string {
    match v
    case JNull => "null"
    case JText(s) => s
    case JInt(n) => IntToString(n)
    case JBool(b) => if b then "true" else "false"
  }

  /** `String.valueOf(String)` / `%s` of a nullable string. */
  function ShowStr(s: Option<string>): string {
    if s.Some? then s.value else "null"
  }

  /** A nullable string as an object value. */
  function AsValue(s: Option<string>): JValue {
    if s.Some? then JText(s.value) else JNull
  }

  function BoolToString(b: bool): string {
    if b then "true" else "false"
  }

  /** `StringUtils.isEmpty`: null or the empty string. */
  predicate IsEmpty(s: Option<string>) {
    s.None? || s.value == ""
  }

  /** `StringUtils.wrapperSingleQuotes`: the text between single quotes. */
  function Quote(s: Option<string>): string {
    "'" + ShowStr(s) + "'"
  }

  /** `Boolean.parseBoolean`: true exactly for a non-null "true" in any case. */
  predicate ParseBoolean(s: Option<string>) {
    s.Some? && Upper(s.value) == "TRUE"
  }

  function UpperChar(c: char): char {
    if 'a' <= c <= 'z' then (c as int - 32) as char else c
  }

  function LowerChar(c: char): char {
    if 'A' <= c <= 'Z' then (c as int + 32) as char else c
  }

  /** `String.toUpperCase` restricted to ASCII letters. */
  function Upper(s: string): (r: string)
    ensures |r| == |s|
    ensures forall i :: 0 <= i < |s| ==> r[i] == UpperChar(s[i])
  {
    if s == [] then [] else [UpperChar(s[0])] + Upper(s[1..])
  }

  /** `String.toLowerCase` restricted to ASCII letters. */
  function Lower(s: string): (r: string)
    ensures |r| == |s|
    ensures forall i :: 0 <= i < |s| ==> r[i] == LowerChar(s[i])
  {
    if s == [] then [] else [LowerChar(s[0])] + Lower(s[1..])
  }

  /** `a.equalsIgnoreCase(b)` for a literal `a`; a null `b` never matches. */
  predicate EqualsIgnoreCase(a: string, b: Option<string>) {
    b.Some? && Upper(a) == Upper(b.value)
  }

  /** `String.join(sep, xs)`. */
  function Join(sep: string, xs: seq<string>): string {
    if xs == [] then ""
    else if |xs| == 1 then xs[0]
    else xs[0] + sep + Join(sep, xs[1..])
  }

  predicate StartsWith(s: string, p: string) {
    p <= s
  }

  predicate EndsWith(s: string, t: string) {
    |t| <= |s| && s[|s| - |t|..] == t
  }

  /** `t` occurs in `s` starting at position `i`. */
  predicate OccursAt(s: string, t: string, i: int) {
    0 <= i <= |s| - |t| && s[i..i + |t|] == t
  }

  ghost predicate Contains(s: string, t: string) {
    exists i :: OccursAt(s, t, i)
  }

  lemma ContainsMiddle(a: string, t: string, b: string)
    ensures Contains(a + t + b, t)
  {
    var s := a + t + b;
    assert s[|a|..|a| + |t|] == t;
    assert OccursAt(s, t, |a|);
  }

  lemma StartsWithConcat(p: string, b: string)
    ensures StartsWith(p + b, p)
  {
  }

  lemma EndsWithConcat(a: string, t: string)
    ensures EndsWith(a + t, t)
  {
    assert (a + t)[|a|..] == t;
  }

  /** The concatenation of a list of fragments. */
  function Concat(parts: seq<string>): string {
    if parts == [] then "" else parts[0] + Concat(parts[1..])
  }

  lemma {:induction false} ConcatAround(parts: seq<string>, i: int)
    requires 0 <= i < |parts|
    ensures Concat(parts) == Concat(parts[..i]) + parts[i] + Concat(parts[i + 1..])
    decreases i
  {
    if i > 0 {
      ConcatAround(parts[1..], i - 1);
      assert parts[1..][..i - 1] == parts[..i][1..];
      assert parts[1..][i - 1] == parts[i];
      assert parts[1..][i..] == parts[i + 1..];
      assert parts[..i][0] == parts[0];
    }
  }

  /** Every fragment occurs in the concatenation. */
  lemma ContainsPart(parts: seq<string>, i: int)
    requires 0 <= i < |parts|
    ensures Contains(Concat(parts), parts[i])
  {
    ConcatAround(parts, i);
    ContainsMiddle(Concat(parts[..i]), parts[i], Concat(parts[i + 1..]));
  }

  /** The concatenation ends with the last fragment. */
  lemma EndsWithLast(parts: seq<string>)
    requires parts != []
    ensures EndsWith(Concat(parts), parts[|parts| - 1])
  {
    var n := |parts| - 1;
    ConcatAround(parts, n);
    assert parts[n + 1..] == [];
    EndsWithConcat(Concat(parts[..n]), parts[n]);
  }

  /** Splits `s` at every occurrence of `c`, like Java's `split` without dropping empty parts. */
  function Split(s: string, c: char): (r: seq<string>)
    ensures |r| >= 1
  {
    if c !in s then [s]
    else
      var i := FirstIndex(s, c);
      [s[..i]] + Split(s[i + 1..], c)
  }

  function FirstIndex(s: string, c: char): (i: nat)
    requires c in s
    ensures i < |s| && s[i] == c && c !in s[..i]
  {
    if s[0] == c then 0 else 1 + FirstIndex(s[1..], c)
  }

  /** A string without the separator does not split. */
  lemma SplitWhole(s: string, c: char)
    requires c !in s
    ensures Split(s, c) == [s]
  {
  }

  /** Splitting a separator-joined pair recovers the first part and splits the rest. */
  lemma {:induction false} SplitJoined(a: string, b: string, c: char)
    requires c !in a
    ensures Split(a + [c] + b, c) == [a] + Split(b, c)
  {
    var s := a + [c] + b;
    assert s[|a|] == c;
    assert c in s;
    assert s[..|a|] == a;
    var i := FirstIndex(s, c);
    assert i == |a|;
    assert s[i + 1..] == b;
  }

  /** Joining parts that do not hold the separator and splitting again gives the parts back. */
  lemma {:induction false} SplitJoin(parts: seq<string>, c: char)
    requires parts != [] && forall i :: 0 <= i < |parts| ==> c !in parts[i]
    ensures Split(Join([c], parts), c) == parts
    decreases |parts|
  {
    if |parts| == 1 {
      SplitWhole(parts[0], c);
    } else {
      var rest := parts[1..];
      assert forall i :: 0 <= i < |rest| ==> rest[i] == parts[i + 1];
      SplitJoin(rest, c);
      SplitJoined(parts[0], Join([c], rest), c);
      assert parts == [parts[0]] + rest;
    }
  }

  /** True when no two entries share a key. */
  predicate DistinctKeys(es: seq<(string, JValue)>) {
    forall i, j :: 0 <= i < j < |es| ==> es[i].0 != es[j].0
  }

  /** A Java `Map<String, Object>` given by its entries in iteration order. */
  type Entries = es: seq<(string, JValue)> | DistinctKeys(es) witness []

  predicate HasKey(es: seq<(string, JValue)>, k: string) {
    exists i :: 0 <= i < |es| && es[i].0 == k
  }

  /** `Map.get`: the value stored under `k`, or null when the key is absent. */
  function Lookup(es: seq<(string, JValue)>, k: string): (v: JValue)
    ensures v != JNull ==> HasKey(es, k)
    ensures forall i :: 0 <= i < |es| && es[i].0 == k && DistinctKeys(es) ==> v == es[i].1
  {
    if es == [] then JNull
    else if es[0].0 == k then es[0].1
    else
      var v := Lookup(es[1..], k);
      assert forall i :: 1 <= i < |es| ==> es[1..][i - 1] == es[i];
      v
  }

  /** `(String) map.get(k)`: a cast that fails on a non-string value. */
  function LookupString(es: seq<(string, JValue)>, k: string): Result<Option<string>, string> {
    match Lookup(es, k)
    case JNull => Ok(None)
    case JText(s) => Ok(Some(s))
    case _ => Err("ClassCastException")
  }

  /** `Map.get` on a `Map<String, String>`: null when absent. */
  function GetStr(m: map<string, string>, k: string): Option<string> {
    if k in m then Some(m[k]) else None
  }
}
