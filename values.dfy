/** JavaScript values as the actions and the nodes pass them around, and the
    few string operations the source applies to them. */
module Values {

  /** A JSON-like JavaScript value. Numbers are integers: nothing in the
      modelled code computes with fractions. */
  datatype Value =
    | Undefined
    | Null
    | Bool(b: bool)
    | Num(n: int)
    | Str(s: string)
    | Arr(items: seq<Value>)
    | Obj(fields: Record)

  /** A plain object: the records the actions return and the nodes emit. */
  type Record = map<string, Value>

  /** One item a node emits: its JSON and the index of the input it pairs
      with. */
  datatype OutputItem = OutputItem(json: Record, pairedItem: nat)

  /** `obj.key`: a missing key reads as undefined. */
  function Get(r: Record, key: string): Value {
    if key in r then r[key] else Undefined
  }

  /** JavaScript truthiness. */
  predicate Truthy(v: Value) {
    match v
    case Undefined => false
    case Null => false
    case Bool(b) => b
    case Num(n) => n != 0
    case Str(s) => s != ""
    case _ => true
  }

  /** `x || fallback` on an optional number. */
  function OrDefault(x: int, fallback: int): int {
    if x != 0 then x else fallback
  }

  // ---------------------------------------------------------------------
  // Decimal rendering, as template literals render a number.

  function Digit(d: nat): char
    requires d < 10
  {
    ('0' as int + d) as char
  }

  function NatToString(n: nat): (s: string)
    ensures |s| >= 1
    ensures forall i :: 0 <= i < |s| ==> '0' <= s[i] <= '9'
    ensures n < 10 <==> |s| == 1
    decreases n
  {
    if n < 10 then [Digit(n)] else NatToString(n / 10) + [Digit(n % 10)]
  }

  function IntToString(n: int): (s: string)
    ensures |s| >= 1
  {
    if n < 0 then "-" + NatToString(-n) else NatToString(n)
  }

  /** Distinct numbers render to distinct strings, so indices used as
      object keys never collide. */
  lemma {:induction false} NatToStringInjective(a: nat, b: nat)
    requires NatToString(a) == NatToString(b)
    ensures a == b
    decreases a
  {
    var sa, sb := NatToString(a), NatToString(b);
    if a < 10 || b < 10 {
      assert |sa| == 1 && |sb| == 1;
    } else {
      assert sa[|sa| - 1] == Digit(a % 10) && sb[|sb| - 1] == Digit(b % 10);
      assert sa[..|sa| - 1] == NatToString(a / 10);
      assert sb[..|sb| - 1] == NatToString(b / 10);
      NatToStringInjective(a / 10, b / 10);
    }
  }

  /** `{...arr}` or `{...str}`: the elements under the keys "0", "1", ... */
  function Indexed(items: seq<Value>): (r: Record)
    ensures forall i :: 0 <= i < |items| ==> NatToString(i) in r && r[NatToString(i)] == items[i]
    ensures forall k :: k in r ==> exists i :: 0 <= i < |items| && k == NatToString(i)
  {
    assert forall a: nat, b: nat :: NatToString(a) == NatToString(b) ==> a == b by {
      forall a: nat, b: nat | NatToString(a) == NatToString(b) ensures a == b {
        NatToStringInjective(a, b);
      }
    }
    map i | 0 <= i < |items| :: NatToString(i) := items[i]
  }

  /** The own enumerable properties that an object spread `{...v}` copies:
      an object's fields, the elements of an array or the characters of a
      string; null, undefined, booleans and numbers contribute none. */
  function Spread(v: Value): Record {
    match v
    case Obj(f) => f
    case Arr(items) => Indexed(items)
    case Str(s) => Indexed(seq(|s|, i requires 0 <= i < |s| => Str([s[i]])))
    case _ => map[]
  }

  // ---------------------------------------------------------------------
  // Strings.

  /** The characters the regular expression class `\s` and `String.trim`
      treat as white space. */
  predicate IsSpace(c: char) {
    var n := c as int;
    n == 0x20 || 0x09 <= n <= 0x0D || n == 0xA0 || n == 0x1680 || 0x2000 <= n <= 0x200A
    || n == 0x2028 || n == 0x2029 || n == 0x202F || n == 0x205F || n == 0x3000 || n == 0xFEFF
  }

  /** `s.trim() === ''`. */
  predicate IsBlank(s: string) {
    forall i :: 0 <= i < |s| ==> IsSpace(s[i])
  }

  predicate IsUpper(c: char) {
    'A' <= c <= 'Z'
  }

  /** `toLowerCase`, on the ASCII letters. */
  function ToLower(s: string): (r: string)
    ensures |r| == |s|
    ensures forall i :: 0 <= i < |s| ==> !IsUpper(r[i])
    ensures forall i :: 0 <= i < |s| ==> (IsSpace(r[i]) <==> IsSpace(s[i]))
  {
    seq(|s|, i requires 0 <= i < |s| => if IsUpper(s[i]) then (s[i] as int + 32) as char else s[i])
  }

  /** `sub` occurs in `s` starting at index `i`. */
  predicate OccursAt(s: string, sub: string, i: int) {
    0 <= i <= |s| - |sub| && s[i..i + |sub|] == sub
  }

  /** `s.includes(sub)`. */
  predicate Contains(s: string, sub: string) {
    exists i | 0 <= i <= |s| - |sub| :: OccursAt(s, sub, i)
  }
}
