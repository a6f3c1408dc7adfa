/**
 * The PHP values that flow through the settings store: configuration slots,
 * cached values and the `value` column of the settings table.
 */
module PhpValues {

  /** A PHP value. Floats and objects are not modelled; an array keeps only its elements. */
  datatype Value =
    | Null
    | Bool(b: bool)
    | Int(i: int)
    | Str(s: string)
    | Arr(items: seq<Value>)

  /** PHP's conversion to boolean, i.e. what `if ($x)` tests. Null is never truthy,
      while a string is falsy only when it is empty or exactly `"0"`. */
  predicate Truthy(v: Value)
    ensures Truthy(v) ==> IsSet(v)
    ensures v == Str("") || v == Bool(false) || v == Int(0) || v == Arr([]) ==> !Truthy(v)
    ensures Truthy(v) <==>
      !(v == Null || v == Bool(false) || v == Int(0) || v == Str("") || v == Str("0") || v == Arr([]))
    ensures v.Str? && |v.s| > 1 ==> Truthy(v)
    ensures v.Str? && |v.s| == 1 ==> (Truthy(v) <==> v.s[0] != '0')
  {
    match v
    case Null => false
    case Bool(b) => b
    case Int(i) => i != 0
    case Str(s) => s != "" && s != "0"
    case Arr(items) => |items| > 0
  }

  /** `isset` of an array slot: the slot exists and is not null. An absent slot is modelled as Null. */
  predicate IsSet(v: Value) {
    !v.Null?
  }

  /** The decimal digit for `d`. */
  function DigitChar(d: nat): (c: char)
    requires d < 10
    ensures '0' <= c <= '9'
    ensures c == '0' <==> d == 0
  {
    (48 + d) as char
  }

  /** Whether a string consists of decimal digits only. */
  predicate IsDigits(s: string) {
    forall i :: 0 <= i < |s| ==> '0' <= s[i] <= '9'
  }

  /** The number a string of decimal digits denotes. */
  function DecimalValue(s: string): nat
    requires IsDigits(s)
  {
    if |s| == 0 then 0 else 10 * DecimalValue(s[..|s| - 1]) + (s[|s| - 1] as int - 48)
  }

  /** Decimal notation of a natural number, without leading zeros. */
  function NatToDecimal(n: nat): (s: string)
    ensures |s| > 0
    ensures IsDigits(s)
    ensures DecimalValue(s) == n
    ensures |s| > 1 ==> s[0] != '0'
    ensures s == "0" <==> n == 0
    decreases n
  {
    if n < 10 then [DigitChar(n)]
    else
      var prefix := NatToDecimal(n / 10);
      var s := prefix + [DigitChar(n % 10)];
      assert s[..|s| - 1] == prefix;
      s
  }

  /** PHP's conversion to string, as the `.` operator applies it. */
  function ToPhpString(v: Value): (s: string)
    ensures !v.Arr? ==> (Truthy(Str(s)) <==> Truthy(v))
    ensures v.Str? ==> s == v.s
    ensures v == Bool(true) ==> s == "1"
    ensures v == Null || v == Bool(false) ==> s == ""
    ensures v.Int? && v.i >= 0 ==> IsDigits(s) && DecimalValue(s) == v.i && (|s| > 1 ==> s[0] != '0')
    ensures v.Int? && v.i < 0 ==>
      && |s| > 1 && s[0] == '-' && IsDigits(s[1..]) && DecimalValue(s[1..]) == -v.i
      && (|s| > 2 ==> s[1] != '0') && s[1..] != "0"
  {
    match v
    case Null => ""
    case Bool(b) => if b then "1" else ""
    case Int(i) =>
      if i < 0 then
        var digits := NatToDecimal(-i);
        assert ("-" + digits)[1..] == digits;
        "-" + digits
      else NatToDecimal(i)
    case Str(s) => s
    case Arr(_) => "Array"
  }
}
