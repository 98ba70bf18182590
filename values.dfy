/** JavaScript values as the logger sees them, and the two conversions to
    text that it relies on: integer printing and the `toString` helper
    followed by string concatenation. */
module JsValues {

  datatype Option<T> = None | Some(value: T) {
    /** `value ?? default` */
    function GetOr(default: T): T {
      if Some? then value else default
    }
  }

  /** A JavaScript value. Numbers are restricted to integers; arrays occur
      only at the top level of a log call (see Codec.Message). */
  datatype JsValue =
    | Undefined
    | Null
    | Bool(b: bool)
    | Num(n: int)
    | Str(s: string)
    | Obj(props: seq<Prop>)

  /** One own enumerable property of an object, in insertion order. */
  datatype Prop = Prop(key: string, val: JsValue)

  /** JavaScript truthiness (`!!v`): false exactly for undefined, null,
      false, 0 and the empty string; every object is truthy. */
  predicate Truthy(v: JsValue): (r: bool)
    ensures r ==> !v.Undefined? && !v.Null?
    ensures v.Obj? ==> r
    ensures v.Str? ==> (r <==> |v.s| > 0)
  {
    match v
    case Undefined => false
    case Null => false
    case Bool(b) => b
    case Num(n) => n != 0
    case Str(s) => s != ""
    case Obj(_) => true
  }

  /** `isDefinedNotNull`: neither `undefined` nor `null`. */
  predicate DefinedNotNull(v: JsValue) {
    !v.Undefined? && !v.Null?
  }

  // ---------------------------------------------------------------------
  // String length
  // ---------------------------------------------------------------------

  /** The UTF-16 code units one character takes: two for a character beyond
      the Basic Multilingual Plane (a surrogate pair), one otherwise. */
  function Utf16Units(c: char): nat {
    if c as int >= 0x1_0000 then 2 else 1
  }

  /** `s.length` in JavaScript: the number of UTF-16 code units of s. It is
      at least the number of characters and at most twice that, and equals
      it when no character lies beyond the Basic Multilingual Plane. */
  function Utf16Length(s: string): (n: nat)
    ensures |s| <= n <= 2 * |s|
    ensures (forall i :: 0 <= i < |s| ==> s[i] as int < 0x1_0000) ==> n == |s|
    decreases |s|
  {
    if s == [] then 0 else Utf16Units(s[0]) + Utf16Length(s[1..])
  }

  /** Lengths add up over concatenation. */
  lemma {:induction false} Utf16Append(a: string, b: string)
    ensures Utf16Length(a + b) == Utf16Length(a) + Utf16Length(b)
    decreases |a|
  {
    if a == [] {
      assert a + b == b;
    } else {
      assert (a + b)[1..] == a[1..] + b;
      Utf16Append(a[1..], b);
    }
  }

  /** One character beyond the Basic Multilingual Plane followed by a
      newline is three code units long although it is two characters. */
  lemma Utf16AstralExample()
    ensures |"\U{1F600}\n"| == 2 && Utf16Length("\U{1F600}\n") == 3
  {
    var s := "\U{1F600}\n";
    assert s[1..][1..] == [];
  }

  // ---------------------------------------------------------------------
  // Integer printing (`Number.prototype.toString(10)` on integers)
  // ---------------------------------------------------------------------

  predicate IsDigit(c: char) {
    '0' <= c <= '9'
  }

  predicate AllDigits(s: string) {
    forall i :: 0 <= i < |s| ==> IsDigit(s[i])
  }

  function Digit(d: nat): (c: char)
    requires d < 10
    ensures IsDigit(c) && c as int - '0' as int == d
  {
    ('0' as int + d) as char
  }

  /** Decimal text of a natural number, without leading zeros. */
  function NatToDecimal(n: nat): (s: string)
    ensures |s| >= 1 && AllDigits(s)
    ensures s[0] == '0' ==> n == 0
    decreases n
  {
    if n < 10 then [Digit(n)] else NatToDecimal(n / 10) + [Digit(n % 10)]
  }

  /** The number a string of digits denotes. */
  function DecimalValue(s: string): nat
    requires AllDigits(s)
    decreases |s|
  {
    if s == [] then 0
    else DecimalValue(s[..|s| - 1]) * 10 + (s[|s| - 1] as int - '0' as int)
  }

  lemma {:induction false} DecimalRoundTrip(n: nat)
    ensures DecimalValue(NatToDecimal(n)) == n
    decreases n
  {
    if n >= 10 {
      var s := NatToDecimal(n / 10);
      var t := s + [Digit(n % 10)];
      assert t[..|t| - 1] == s;
      DecimalRoundTrip(n / 10);
    }
  }

  /** Decimal text of an integer, with a leading '-' when negative. */
  function IntToDecimal(i: int): (s: string)
    ensures IsIntText(s)
  {
    if i < 0 then "-" + NatToDecimal(-i) else NatToDecimal(i)
  }

  predicate IsIntText(s: string) {
    |s| >= 1 && (if s[0] == '-' then |s| >= 2 && AllDigits(s[1..]) else AllDigits(s))
  }

  /** Reads back what IntToDecimal prints. */
  function IntValue(s: string): int
    requires IsIntText(s)
  {
    if s[0] == '-' then 0 - DecimalValue(s[1..]) as int else DecimalValue(s)
  }

  lemma IntRoundTrip(i: int)
    ensures IntValue(IntToDecimal(i)) == i
  {
    if i < 0 {
      assert ("-" + NatToDecimal(-i))[1..] == NatToDecimal(-i);
      DecimalRoundTrip(-i);
    } else {
      DecimalRoundTrip(i);
    }
  }

  // ---------------------------------------------------------------------
  // toString helper
  // ---------------------------------------------------------------------

  /** The text the source's `toString` helper yields, as it ends up once
      concatenated into a string: strings pass through, defined values use
      their own `toString()`, and `undefined`/`null` go through
      `JSON.stringify`, whose results concatenate as "undefined" and "null".
      The same text is what `acc + v` appends for a value v. */
  function ToText(v: JsValue): (s: string)
    ensures v.Str? ==> s == v.s
    ensures v.Num? ==> IsIntText(s) && IntValue(s) == v.n
  {
    match v
    case Undefined => "undefined"
    case Null => "null"
    case Bool(b) => if b then "true" else "false"
    case Num(n) => IntRoundTrip(n); IntToDecimal(n)
    case Str(s) => s
    case Obj(_) => "[object Object]"
  }
}
