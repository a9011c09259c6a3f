/**
 * JavaScript values as the MCP server sees them: tool arguments, workflow
 * input schemas and the objects it builds. Only the parts of JavaScript's
 * value semantics that the server's code relies on are modelled: truthiness,
 * `typeof … === 'object'`, property reads, `Object.entries` and template-string
 * conversion. Numbers are integers.
 */
module Json {

  datatype Json =
    | Undefined
    | Null
    | Bool(b: bool)
    | Num(n: int)
    | Str(s: string)
    | Arr(items: seq<Json>)
    | Obj(props: map<string, Json>)

  /** JavaScript truthiness: `undefined`, `null`, `false`, `0` and `""` are falsy. */
  predicate Truthy(v: Json) {
    match v
    case Undefined => false
    case Null => false
    case Bool(b) => b
    case Num(n) => n != 0
    case Str(s) => s != ""
    case Arr(_) => true
    case Obj(_) => true
  }

  /** `null` or `undefined`: reading a property of these throws a TypeError. */
  predicate Nullish(v: Json) {
    v.Undefined? || v.Null?
  }

  /** `typeof v === 'object'` (true of `null` as well). */
  predicate IsObjectType(v: Json) {
    v.Null? || v.Arr? || v.Obj?
  }

  /**
   * The property read `v[k]` of a non-nullish value, for the non-index
   * property names the server reads: an object's own property, or the
   * `length` of a string or an array; anything else is `undefined`.
   */
  function Get(v: Json, k: string): (r: Json)
    ensures v.Obj? && k in v.props ==> r == v.props[k]
    ensures !v.Obj? && k != "length" ==> r == Undefined
  {
    match v
    case Obj(m) => if k in m then m[k] else Undefined
    case Str(s) => if k == "length" then Num(|s|) else Undefined
    case Arr(a) => if k == "length" then Num(|a|) else Undefined
    case _ => Undefined
  }

  /** `x < 10` for a value read as a length; the numeric coercion of strings and objects is not modelled. */
  predicate LessThanTen(x: Json) {
    match x
    case Num(n) => n < 10
    case Null => true
    case Bool(_) => true
    case _ => false
  }

  /** The decimal digit character of `d`. */
  function Digit(d: nat): (c: char)
    requires d < 10
    ensures '0' <= c <= '9'
  {
    (('0' as int) + d) as char
  }

  /** Decimal rendering of a natural number, as `String(n)` gives it. */
  function NatToString(n: nat): (s: string)
    ensures 1 <= |s|
    ensures forall i :: 0 <= i < |s| ==> '0' <= s[i] <= '9'
    ensures n < 10 <==> |s| == 1
  {
    if n < 10 then [Digit(n)] else NatToString(n / 10) + [Digit(n % 10)]
  }

  /** Distinct numbers have distinct decimal renderings. */
  lemma {:induction false} NatToStringInjective(a: nat, b: nat)
    requires NatToString(a) == NatToString(b)
    ensures a == b
  {
    var sa, sb := NatToString(a), NatToString(b);
    if a >= 10 && b >= 10 {
      assert sa[..|sa| - 1] == NatToString(a / 10);
      assert sb[..|sb| - 1] == NatToString(b / 10);
      NatToStringInjective(a / 10, b / 10);
      assert Digit(a % 10) == sa[|sa| - 1] == sb[|sb| - 1] == Digit(b % 10);
    } else if a < 10 && b < 10 {
      assert Digit(a) == sa[0] == sb[0] == Digit(b);
    }
  }

  lemma NatToStringInjectiveAll()
    ensures forall a: nat, b: nat :: NatToString(a) == NatToString(b) ==> a == b
  {
    forall a: nat, b: nat | NatToString(a) == NatToString(b)
      ensures a == b
    {
      NatToStringInjective(a, b);
    }
  }

  /** Decimal rendering of an integer, with a leading `-` when negative. */
  function IntToString(n: int): (s: string)
    ensures n >= 0 ==> s == NatToString(n)
    ensures n < 0 ==> s == "-" + NatToString(-n)
  {
    if n < 0 then "-" + NatToString(-n) else NatToString(n)
  }

  /** The strings joined with the separator between neighbours, as `Array.prototype.join` does. */
  function Join(parts: seq<string>, sep: string): (r: string)
    ensures parts == [] ==> r == ""
    ensures |parts| == 1 ==> r == parts[0]
  {
    if parts == [] then ""
    else if |parts| == 1 then parts[0]
    else parts[0] + sep + Join(parts[1..], sep)
  }

  /** Joining one more part appends the separator and that part, as a left-to-right join does. */
  lemma {:induction false} JoinSnoc(parts: seq<string>, p: string, sep: string)
    requires parts != []
    ensures Join(parts + [p], sep) == Join(parts, sep) + sep + p
  {
    if |parts| > 1 {
      assert (parts + [p])[1..] == parts[1..] + [p];
      JoinSnoc(parts[1..], p, sep);
    }
  }

  /** `${v}` inside a template string. */
  function TemplateString(v: Json): string
    decreases v
  {
    match v
    case Undefined => "undefined"
    case Null => "null"
    case Bool(b) => if b then "true" else "false"
    case Num(n) => IntToString(n)
    case Str(s) => s
    case Arr(items) =>
      Join(seq(|items|, i requires 0 <= i < |items| =>
                          if Nullish(items[i]) then "" else TemplateString(items[i])), ",")
    case Obj(_) => "[object Object]"
  }

  /** The entries of a string: each character under its decimal index. */
  function StringEntries(s: string): (m: map<string, Json>)
    ensures forall i :: 0 <= i < |s| ==> NatToString(i) in m && m[NatToString(i)] == Str([s[i]])
    ensures s == [] ==> m == map[]
  {
    NatToStringInjectiveAll();
    map i | 0 <= i < |s| :: NatToString(i) := Str([s[i]])
  }

  /** The entries of an array: each element under its decimal index. */
  function ArrayEntries(a: seq<Json>): (m: map<string, Json>)
    ensures forall i :: 0 <= i < |a| ==> NatToString(i) in m && m[NatToString(i)] == a[i]
    ensures a == [] ==> m == map[]
  {
    NatToStringInjectiveAll();
    map i | 0 <= i < |a| :: NatToString(i) := a[i]
  }

  /**
   * `Object.entries(v)` as a map from key to value: an object's own
   * properties, a string's characters and an array's elements under their
   * decimal indices, and nothing for other values.
   */
  function Entries(v: Json): map<string, Json> {
    match v
    case Obj(m) => m
    case Str(s) => StringEntries(s)
    case Arr(a) => ArrayEntries(a)
    case _ => map[]
  }
}
