/**
  Values the relay passes around: optional results, JSON values as JavaScript sees
  them (their truthiness and their fields), and the string tests the relay uses on
  channel and event names.
 */
module Values {

  datatype Option<+T> = None | Some(value: T) {
    /** `x || fallback` for a value that is either present or null. */
    function GetOr(fallback: T): T {
      match this
      case Some(v) => v
      case None => fallback
    }
  }

  /**
    A decoded JSON value. `Null` also stands for a field that is not there
    (`undefined`); numbers are integral.
   */
  datatype Value =
    | Null
    | Bool(b: bool)
    | Num(n: int)
    | Str(s: string)
    | Obj(fields: map<string, Value>)

  /** JavaScript truthiness: `if (v)`. */
  predicate Truthy(v: Value) {
    match v
    case Null => false
    case Bool(b) => b
    case Num(n) => n != 0
    case Str(s) => s != ""
    case Obj(_) => true
  }

  /** Property access `v.key`: only an object has fields; anything else reads as undefined. */
  function Get(v: Value, key: string): Value {
    if v.Obj? && key in v.fields then v.fields[key] else Null
  }

  /** The JSON decoder: `Some` of the decoded value, or `None` where `JSON.parse` throws. */
  type Decoder = string -> Option<Value>

  /**
    `try { x = JSON.parse(x); } catch (e) { }`: a string that decodes is replaced by
    the value it encodes; a string that does not decode, and any value that is not
    a string, is kept as it is.
   */
  function Reparse(v: Value, decode: Decoder): Value {
    if v.Str? then decode(v.s).GetOr(v) else v
  }

  /** `s.startsWith(prefix)`, also `s.lastIndexOf(prefix, 0) === 0`. */
  predicate StartsWith(s: string, prefix: string) {
    |prefix| <= |s| && s[..|prefix|] == prefix
  }

  /** `t` occurs in `s` starting at index `i`. */
  predicate OccursAt(s: string, t: string, i: int) {
    0 <= i && i + |t| <= |s| && s[i..i + |t|] == t
  }

  /** Whether `t` occurs somewhere in `s`, checked from the left one position at a time. */
  predicate Contains(s: string, t: string)
    decreases |s|
  {
    |t| <= |s| && (StartsWith(s, t) || (|s| > 0 && Contains(s[1..], t)))
  }

  /** `Contains` is the substring test: some position of `s` starts an occurrence of `t`. */
  lemma {:induction false} ContainsIff(s: string, t: string)
    ensures Contains(s, t) <==> exists i :: OccursAt(s, t, i)
    decreases |s|
  {
    if Contains(s, t) {
      if StartsWith(s, t) {
        assert OccursAt(s, t, 0);
      } else {
        ContainsIff(s[1..], t);
        var i :| OccursAt(s[1..], t, i);
        assert s[1..][i..i + |t|] == s[i + 1..i + 1 + |t|];
        assert OccursAt(s, t, i + 1);
      }
    }
    if exists i :: OccursAt(s, t, i) {
      var i :| OccursAt(s, t, i);
      if i == 0 {
        assert StartsWith(s, t);
      } else {
        assert s[1..][i - 1..i - 1 + |t|] == s[i..i + |t|];
        assert OccursAt(s[1..], t, i - 1);
        ContainsIff(s[1..], t);
      }
    }
  }

  /** The decimal digits of a natural number, most significant first. */
  function NatText(n: nat): string
    decreases n
  {
    var digit := [(48 + n % 10) as char];
    if n < 10 then digit else NatText(n / 10) + digit
  }

  /** `String(v)`: the text a value becomes where a string is expected (a room name, an event name, an object key). */
  function Text(v: Value): string {
    match v
    case Null => "null"
    case Bool(b) => if b then "true" else "false"
    case Num(n) => if n < 0 then "-" + NatText(-n) else NatText(n)
    case Str(s) => s
    case Obj(_) => "[object Object]"
  }

  predicate IsDigit(c: char) {
    '0' <= c <= '9'
  }

  predicate AllDigits(t: string) {
    forall j :: 0 <= j < |t| ==> IsDigit(t[j])
  }

  /** `Number(t)` for a string of decimal digits. */
  function DecimalValue(t: string): nat
    requires AllDigits(t)
    decreases |t|
  {
    if |t| == 0 then 0
    else 10 * DecimalValue(t[..|t| - 1]) + (t[|t| - 1] as int - 48)
  }

  /** The text of a natural number is all digits and reads back as the number. */
  lemma {:induction false} NatTextRoundTrip(n: nat)
    ensures AllDigits(NatText(n)) && |NatText(n)| > 0
    ensures DecimalValue(NatText(n)) == n
    decreases n
  {
    if n >= 10 {
      NatTextRoundTrip(n / 10);
      var t := NatText(n);
      assert t[..|t| - 1] == NatText(n / 10);
    }
  }
}
