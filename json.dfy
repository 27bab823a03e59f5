/**
 * The Python values that travel through the job subsystem: the structures
 * the `json` module reads and writes (payloads, progress mappings, rows
 * returned by a remote API), together with the few pieces of Python
 * semantics the core applies to them: truthiness, `a or b`, `dict.get`,
 * the `in` operator and `str()`.
 */
module Json {
  import opened Wrappers

  /** A decoded JSON value. Floating-point numbers are not modelled. */
  datatype Json =
    | JNull
    | JBool(b: bool)
    | JInt(i: int)
    | JStr(s: string)
    | JList(items: seq<Json>)
    | JObj(fields: map<string, Json>)

  /** The empty mapping `{}`. */
  const EmptyObj: Json := JObj(map[])

  /** Python truthiness of a value. */
  predicate Truthy(j: Json) {
    match j
    case JNull => false
    case JBool(b) => b
    case JInt(i) => i != 0
    case JStr(s) => s != ""
    case JList(xs) => xs != []
    case JObj(f) => f != map[]
  }

  /** Python's `a or b`: the first operand when it is truthy, else the second. */
  function Or(a: Json, b: Json): (r: Json)
    ensures Truthy(a) ==> r == a
    ensures !Truthy(a) ==> r == b
  {
    if Truthy(a) then a else b
  }

  /** `data or {}`: every falsy value becomes the empty mapping. */
  function OrEmpty(j: Json): (r: Json)
    ensures Truthy(r) || r == EmptyObj
    ensures Truthy(j) ==> r == j
  {
    Or(j, EmptyObj)
  }

  /** `d.get(key, default)`. */
  function Get(d: map<string, Json>, key: string, default: Json): (r: Json)
    ensures key in d ==> r == d[key]
    ensures key !in d ==> r == default
  {
    if key in d then d[key] else default
  }

  /** `needle` occurs in `hay` starting at index `i`. */
  predicate OccursAt(needle: string, hay: string, i: int) {
    0 <= i <= |hay| - |needle| && hay[i..i + |needle|] == needle
  }

  /** `needle` occurs in `hay` as a contiguous slice. */
  predicate IsSubstring(needle: string, hay: string) {
    exists i :: 0 <= i <= |hay| - |needle| && OccursAt(needle, hay, i)
  }

  /**
   * Python's `key in container` for a string key: key membership for a
   * mapping, element equality for a list, substring test for a string.
   * `None` stands for the `TypeError` raised for any other operand.
   */
  function In(key: string, container: Json): (r: Option<bool>)
    ensures r.None? <==> !(container.JObj? || container.JList? || container.JStr?)
    ensures container.JObj? ==> r == Some(key in container.fields)
    ensures container.JList? ==> r == Some(JStr(key) in container.items)
    ensures container.JStr? ==> r == Some(IsSubstring(key, container.s))
  {
    match container
    case JObj(f) => Some(key in f)
    case JList(xs) => Some(JStr(key) in xs)
    case JStr(s) => Some(IsSubstring(key, s))
    case _ => None
  }

  /** Decimal digit `d` as a character. */
  function DigitChar(d: int): char
    requires 0 <= d < 10
  {
    (d + '0' as int) as char
  }

  /** Value of a decimal digit character, or -1 for any other character. */
  function DigitValue(c: char): int {
    if '0' <= c <= '9' then c as int - '0' as int else -1
  }

  /** Every character of `s` is a decimal digit. */
  predicate AllDigits(s: string) {
    forall k :: 0 <= k < |s| ==> 0 <= DigitValue(s[k]) < 10
  }

  /** `str(n)` for a natural number. */
  function NatToString(n: nat): (s: string)
    ensures |s| >= 1 && AllDigits(s)
    decreases n
  {
    if n < 10 then [DigitChar(n)] else NatToString(n / 10) + [DigitChar(n % 10)]
  }

  /** `str(i)` for an integer. */
  function IntToString(i: int): string {
    if i < 0 then "-" + NatToString(-i) else NatToString(i)
  }

  /** `int(s)` for a non-empty string of decimal digits. */
  function ParseNat(s: string): int
    requires AllDigits(s)
    decreases |s|
  {
    if s == [] then 0 else 10 * ParseNat(s[..|s| - 1]) + DigitValue(s[|s| - 1])
  }

  /** `int(s)` for the text `str()` produces for an integer; `None` for other text. */
  function ParseInt(s: string): Option<int> {
    if s == [] then None
    else if s[0] == '-' then
      if |s| > 1 && AllDigits(s[1..]) then Some(-ParseNat(s[1..])) else None
    else if AllDigits(s) then Some(ParseNat(s)) else None
  }

  lemma {:induction false} ParseNatToString(n: nat)
    ensures ParseNat(NatToString(n)) == n
    decreases n
  {
    var s := NatToString(n);
    if n >= 10 {
      ParseNatToString(n / 10);
      assert s[..|s| - 1] == NatToString(n / 10);
      assert s[|s| - 1] == DigitChar(n % 10);
    } else {
      assert s[..0] == [];
    }
  }

  /** `int(str(i)) == i`: the decimal rendering of an integer can be read back. */
  lemma {:induction false} IntToStringRoundTrip(i: int)
    ensures ParseInt(IntToString(i)) == Some(i)
  {
    var s := IntToString(i);
    if i < 0 {
      assert s[1..] == NatToString(-i);
      ParseNatToString(-i);
    } else {
      assert 0 <= DigitValue(s[0]) < 10;
      ParseNatToString(i);
    }
  }

  /**
   * `str(j)` for the scalar values an f-string embeds. Lists and mappings
   * are rendered as a fixed marker, not as Python's `repr`.
   */
  function PyStr(j: Json): string {
    match j
    case JNull => "None"
    case JBool(b) => if b then "True" else "False"
    case JInt(i) => IntToString(i)
    case JStr(s) => s
    case JList(_) => "[...]"
    case JObj(_) => "{...}"
  }
}
