/** The slice of JavaScript semantics the front end relies on: values as they
    appear in payloads, parsed JSON and configuration objects, truthiness,
    property reads, object spread, `String(x)`, `Number(x)`,
    `String.prototype.trim`, lower-casing, `split` and the
    `replace(/\/+$/, "")` idiom. */
module Js {

  datatype Option<+T> = None | Some(value: T)

  /** A JavaScript number value. Conversions overflow to Infinity as IEEE-754
      doubles do; rounding a finite value to 53 significant bits is not
      modelled, so finite values are kept exactly. */
  datatype Number = NaN | Infinity(negative: bool) | Finite(r: real)

  /** A JavaScript value. Objects are maps from property names to values. */
  datatype Value =
    | Undefined
    | Null
    | Bool(b: bool)
    | Num(n: Number)
    | Str(s: string)
    | Arr(items: seq<Value>)
    | Obj(fields: map<string, Value>)

  /** `v == null` in JavaScript: null or undefined (the operand of `??` and `?.`). */
  predicate Nullish(v: Value) {
    v.Undefined? || v.Null?
  }

  /** ToBoolean: the values `if (v)`, `!v` and `v || w` test. */
  predicate Truthy(v: Value) {
    match v
    case Undefined => false
    case Null => false
    case Bool(b) => b
    case Num(n) => n.Infinity? || (n.Finite? && n.r != 0.0)
    case Str(s) => s != ""
    case Arr(_) => true
    case Obj(_) => true
  }

  /** `a || b` */
  function Or(a: Value, b: Value): Value {
    if Truthy(a) then a else b
  }

  /** `a ?? b` */
  function Coalesce(a: Value, b: Value): Value {
    if Nullish(a) then b else a
  }

  /** `v.key` on a receiver that is not null or undefined (callers handle
      those, where JavaScript throws a TypeError). Only own properties of
      objects are modelled; every other read yields undefined. */
  function Get(v: Value, key: string): Value {
    if v.Obj? && key in v.fields then v.fields[key] else Undefined
  }

  /** The properties `{...v}` copies: those of an object, none for null,
      undefined, booleans and numbers. Strings and arrays, whose index
      properties the spread would copy, also give none here. */
  function SpreadOf(v: Value): map<string, Value> {
    if v.Obj? then v.fields else map[]
  }

  // ---------------------------------------------------------------------------
  // Characters and digits

  predicate IsDigit(c: char) {
    '0' <= c <= '9'
  }

  predicate AllDigits(s: string) {
    forall i :: 0 <= i < |s| ==> IsDigit(s[i])
  }

  function DigitValue(c: char): nat
    requires IsDigit(c)
  {
    (c as int - '0' as int) as nat
  }

  /** The value of a string of decimal digits, most significant first. */
  function DigitsValue(s: string): nat
    requires AllDigits(s)
  {
    if s == [] then 0 else DigitsValue(s[..|s| - 1]) * 10 + DigitValue(s[|s| - 1])
  }

  /** The decimal numeral of a natural number. */
  function NatToDecimal(n: nat): (s: string)
    ensures s != [] && AllDigits(s)
  {
    if n < 10 then ['0' + n as char] else NatToDecimal(n / 10) + ['0' + (n % 10) as char]
  }

  function IntToDecimal(i: int): string {
    if i < 0 then "-" + NatToDecimal(-i) else NatToDecimal(i)
  }

  /** WhiteSpace and LineTerminator code points of ECMAScript, the set that
      `trim` removes and that `Number(s)` skips around a numeral. */
  predicate IsWhitespace(c: char) {
    c == '\t' || c == '\n' || c == '\U{000B}' || c == '\U{000C}' || c == '\r' || c == ' '
    || c == '\U{00A0}' || c == '\U{1680}' || ('\U{2000}' <= c <= '\U{200A}')
    || c == '\U{2028}' || c == '\U{2029}' || c == '\U{202F}' || c == '\U{205F}'
    || c == '\U{3000}' || c == '\U{FEFF}'
  }

  function TrimStart(s: string): string {
    if s != [] && IsWhitespace(s[0]) then TrimStart(s[1..]) else s
  }

  function TrimEnd(s: string): string {
    if s != [] && IsWhitespace(s[|s| - 1]) then TrimEnd(s[..|s| - 1]) else s
  }

  /** `s.trim()` */
  function Trim(s: string): string {
    TrimEnd(TrimStart(s))
  }

  /** The length JavaScript reports: UTF-16 code units, two for a code point
      outside the Basic Multilingual Plane. */
  function Utf16Length(s: string): nat {
    if s == [] then 0 else (if s[0] as int > 0xFFFF then 2 else 1) + Utf16Length(s[1..])
  }

  /** `s.toLowerCase()` on ASCII letters; other characters are kept. */
  function ToLower(s: string): (r: string)
    ensures |r| == |s|
  {
    seq(|s|, i requires 0 <= i < |s| => if 'A' <= s[i] <= 'Z' then (s[i] as int + 32) as char else s[i])
  }

  predicate StartsWith(s: string, prefix: string) {
    |prefix| <= |s| && s[..|prefix|] == prefix
  }

  /** `s.includes(sub)` */
  predicate Contains(s: string, sub: string)
    decreases |s|
  {
    StartsWith(s, sub) || (s != [] && Contains(s[1..], sub))
  }

  // ---------------------------------------------------------------------------
  // Trailing slashes and splitting

  /** `s.replace(/\/+$/, "")` */
  function StripTrailingSlashes(s: string): string {
    if s != [] && s[|s| - 1] == '/' then StripTrailingSlashes(s[..|s| - 1]) else s
  }

  predicate AllSlashes(s: string) {
    forall i :: 0 <= i < |s| ==> s[i] == '/'
  }

  /** Stripping removes a run of '/' at the end and nothing else. */
  lemma {:induction false} StripTrailingSlashesSpec(s: string)
    ensures var r := StripTrailingSlashes(s);
      && (r == [] || r[|r| - 1] != '/')
      && |r| <= |s| && s[..|r|] == r && AllSlashes(s[|r|..])
  {
    if s != [] && s[|s| - 1] == '/' {
      var t := s[..|s| - 1];
      StripTrailingSlashesSpec(t);
      var r := StripTrailingSlashes(t);
      assert s[..|r|] == t[..|r|];
      assert s[|r|..] == t[|r|..] + ['/'];
    }
  }

  /** The index of the first occurrence of `c` in `s`. */
  function IndexOf(s: string, c: char): (i: nat)
    requires c in s
    ensures i < |s| && s[i] == c && c !in s[..i]
  {
    if s[0] == c then 0 else 1 + IndexOf(s[1..], c)
  }

  /** An index holding `c` with no `c` before it is the one `IndexOf` finds. */
  lemma {:induction false} IndexOfUnique(s: string, c: char, i: nat)
    requires i < |s| && s[i] == c && c !in s[..i]
    ensures IndexOf(s, c) == i
  {
    if i > 0 {
      assert s[..i] == [s[0]] + s[1..i];
      assert s[1..][..i - 1] == s[1..i];
      IndexOfUnique(s[1..], c, i - 1);
    }
  }

  lemma SplitAtFirst(s: string, sep: char, i: nat)
    requires i < |s| && s[i] == sep && sep !in s[..i]
    ensures Split(s, sep) == [s[..i]] + Split(s[i + 1..], sep)
  {
    IndexOfUnique(s, sep, i);
  }

  lemma SplitConcatBase(a: string, b: string, sep: char)
    requires sep !in a
    ensures Split(a + [sep] + b, sep) == [a] + Split(b, sep)
    ensures Split(a, sep) == [a]
  {
    var s := a + [sep] + b;
    assert s[..|a|] == a && s[|a| + 1..] == b;
    SplitAtFirst(s, sep, |a|);
  }

  lemma ConcatAssoc<T>(x: seq<T>, y: seq<T>, z: seq<T>)
    ensures x + (y + z) == (x + y) + z
  {
  }

  lemma ConcatAtFirst(a: string, b: string, sep: char, i: nat)
    requires i < |a| && a[i] == sep && sep !in a[..i]
    ensures var s := a + [sep] + b;
      && i < |s| && s[i] == sep && s[..i] == a[..i] && s[i + 1..] == a[i + 1..] + [sep] + b
  {
  }

  lemma SplitConcatStep(a: string, b: string, sep: char)
    requires sep in a
    requires var r := a[IndexOf(a, sep) + 1..];
      Split(r + [sep] + b, sep) == Split(r, sep) + Split(b, sep)
    ensures Split(a + [sep] + b, sep) == Split(a, sep) + Split(b, sep)
  {
    var i := IndexOf(a, sep);
    var x, r := a[..i], a[i + 1..];
    ConcatAtFirst(a, b, sep, i);
    SplitAtFirst(a + [sep] + b, sep, i);
    calc {
      Split(a + [sep] + b, sep);
      [x] + Split(r + [sep] + b, sep);
      [x] + (Split(r, sep) + Split(b, sep));
      { ConcatAssoc([x], Split(r, sep), Split(b, sep)); }
      ([x] + Split(r, sep)) + Split(b, sep);
      Split(a, sep) + Split(b, sep);
    }
  }

  /** Splitting at a separator splits the two sides independently. */
  lemma {:induction false} SplitConcat(a: string, b: string, sep: char)
    ensures Split(a + [sep] + b, sep) == Split(a, sep) + Split(b, sep)
    decreases |a|
  {
    if sep in a {
      SplitConcat(a[IndexOf(a, sep) + 1..], b, sep);
      SplitConcatStep(a, b, sep);
    } else {
      SplitConcatBase(a, b, sep);
    }
  }

  /** `s.split(sep)` for a one-character separator. */
  function Split(s: string, sep: char): (parts: seq<string>)
    ensures |parts| >= 1
    decreases |s|
  {
    if sep !in s then [s]
    else
      var i := IndexOf(s, sep);
      [s[..i]] + Split(s[i + 1..], sep)
  }

  // ---------------------------------------------------------------------------
  // String(v)

  /** `String(n)`. Integral values below 1e21 in magnitude print as their
      decimal numeral; other finite values need the shortest round-trip
      digits of a double, which this model does not compute. */
  function NumberToString(n: Number): string {
    match n
    case NaN => "NaN"
    case Infinity(neg) => if neg then "-Infinity" else "Infinity"
    case Finite(r) =>
      if r == r.Floor as real && -1e21 < r < 1e21 then IntToDecimal(r.Floor) else "[non-integral number]"
  }

  /** `String(v)` */
  function ToStr(v: Value): string
    decreases v, 1
  {
    match v
    case Undefined => "undefined"
    case Null => "null"
    case Bool(b) => if b then "true" else "false"
    case Num(n) => NumberToString(n)
    case Str(s) => s
    case Arr(items) => JoinItems(items)
    case Obj(_) => "[object Object]"
  }

  /** `items.join(",")`, where null and undefined print as "". */
  function JoinItems(items: seq<Value>): string
    decreases items, 0
  {
    if items == [] then ""
    else
      var head := if Nullish(items[0]) then "" else ToStr(items[0]);
      if |items| == 1 then head else head + "," + JoinItems(items[1..])
  }

  // ---------------------------------------------------------------------------
  // Number(v)

  function Pow10(e: nat): (p: nat)
    ensures p >= 1
  {
    if e == 0 then 1 else 10 * Pow10(e - 1)
  }

  function Scale10(m: real, e: int): real {
    if e >= 0 then m * (Pow10(e) as real) else m / (Pow10(-e) as real)
  }

  /** 2^1024 - 2^970, halfway between the largest finite double and 2^1024:
      under round-to-nearest-even every value at or above it becomes Infinity. */
  const OverflowBound: real := 179769313486231580793728971405303415079934132710037826936173778980444968292764750946649017977587207096330286416692887910946555547851940402630657488671505820681908902000708383676273854845817711531764475730270069855571366959622842914819860834936475292719074168444365510704342711559699508093042880177904174497792.0

  /** The number an exact numeral value converts to: Infinity at or beyond
      the overflow bound, the value itself otherwise. */
  function FromExact(r: real): (n: Number)
    ensures n.Infinity? <==> r >= OverflowBound || r <= -OverflowBound
    ensures n.Finite? ==> n.r == r
  {
    if r >= OverflowBound then Infinity(false)
    else if r <= -OverflowBound then Infinity(true)
    else Finite(r)
  }

  /** The length of the longest prefix of `s` accepted by `ok`. */
  function PrefixLength(s: string, ok: char -> bool): (k: nat)
    ensures k <= |s| && forall i :: 0 <= i < k ==> ok(s[i])
    ensures k < |s| ==> !ok(s[k])
  {
    if s != [] && ok(s[0]) then 1 + PrefixLength(s[1..], ok) else 0
  }

  /** An exponent part `[eE][+-]?digits` or nothing; None when malformed. */
  function ExponentOf(s: string): Option<int> {
    if s == [] then Some(0)
    else if s[0] != 'e' && s[0] != 'E' then None
    else
      var t := s[1..];
      var neg := t != [] && t[0] == '-';
      var digits := if t != [] && (t[0] == '+' || t[0] == '-') then t[1..] else t;
      if digits != [] && AllDigits(digits) then
        var d: int := DigitsValue(digits);
        var e: int := if neg then -d else d;
        Some(e)
      else None
  }

  /** An unsigned StrDecimalLiteral: "Infinity", or digits with an optional
      fraction (at least one digit in all) and an optional exponent. */
  function UnsignedDecimal(s: string): Number {
    if s == "Infinity" then Infinity(false)
    else
      var k := PrefixLength(s, IsDigit);
      var intPart := s[..k];
      var rest := s[k..];
      var hasDot := rest != [] && rest[0] == '.';
      var afterDot := if hasDot then rest[1..] else rest;
      var f := if hasDot then PrefixLength(afterDot, IsDigit) else 0;
      var fracPart := afterDot[..f];
      if k + f == 0 then NaN
      else
        match ExponentOf(afterDot[f..])
        case None => NaN
        case Some(e) =>
          var mantissa := DigitsValue(intPart) as real
            + DigitsValue(fracPart) as real / (Pow10(|fracPart|) as real);
          FromExact(Scale10(mantissa, e))
  }

  predicate IsHexDigit(c: char) {
    IsDigit(c) || 'a' <= c <= 'f' || 'A' <= c <= 'F'
  }

  function HexDigitValue(c: char): nat
    requires IsHexDigit(c)
  {
    if IsDigit(c) then DigitValue(c)
    else if 'a' <= c <= 'f' then (c as int - 'a' as int + 10) as nat
    else (c as int - 'A' as int + 10) as nat
  }

  /** The value of a non-empty string of digits in base 2, 8 or 16. */
  function RadixValue(s: string, radix: nat): Option<nat>
    requires radix == 2 || radix == 8 || radix == 16
  {
    if s == [] then Some(0)
    else
      var c := s[|s| - 1];
      if !IsHexDigit(c) || HexDigitValue(c) >= radix then None
      else match RadixValue(s[..|s| - 1], radix)
        case None => None
        case Some(v) => Some(v * radix + HexDigitValue(c))
  }

  /** `0x`, `0o` and `0b` literals (unsigned only). */
  function NonDecimalLiteral(s: string): Option<Number> {
    if |s| < 3 || s[0] != '0' then None
    else
      var radix: nat :=
        if s[1] == 'x' || s[1] == 'X' then 16
        else if s[1] == 'o' || s[1] == 'O' then 8
        else if s[1] == 'b' || s[1] == 'B' then 2
        else 0;
      if radix == 0 then None
      else match RadixValue(s[2..], radix)
        case None => Some(NaN)
        case Some(v) => Some(FromExact(v as real))
  }

  function Negate(n: Number): Number {
    match n
    case NaN => NaN
    case Infinity(neg) => Infinity(!neg)
    case Finite(r) => Finite(-r)
  }

  /** StringToNumber: surrounding whitespace is ignored, the empty numeral is 0,
      anything that is not a numeral is NaN. */
  function StringToNumber(s: string): Number {
    var t := Trim(s);
    if t == "" then Finite(0.0)
    else if t[0] == '+' then UnsignedDecimal(t[1..])
    else if t[0] == '-' then Negate(UnsignedDecimal(t[1..]))
    else match NonDecimalLiteral(t)
      case Some(n) => n
      case None => UnsignedDecimal(t)
  }

  /** `Number(v)`; arrays and objects convert through their string form. */
  function ToNumber(v: Value): Number {
    match v
    case Undefined => NaN
    case Null => Finite(0.0)
    case Bool(b) => Finite(if b then 1.0 else 0.0)
    case Num(n) => n
    case Str(s) => StringToNumber(s)
    case Arr(_) => StringToNumber(ToStr(v))
    case Obj(_) => NaN
  }

  /** `Number.isInteger(n)` */
  predicate IsInteger(n: Number) {
    n.Finite? && n.r == n.r.Floor as real
  }

  /** Trimming leaves a string alone when neither end is whitespace. */
  lemma TrimUnpadded(s: string)
    requires s != [] ==> !IsWhitespace(s[0]) && !IsWhitespace(s[|s| - 1])
    ensures Trim(s) == s
  {
  }

  lemma PrefixLengthAllDigits(d: string)
    requires AllDigits(d)
    ensures PrefixLength(d, IsDigit) == |d|
  {
  }

  lemma UnsignedDecimalOfDigits(d: string)
    requires d != [] && AllDigits(d)
    ensures UnsignedDecimal(d) == FromExact(DigitsValue(d) as real)
  {
    assert d != "Infinity" by { assert IsDigit(d[0]); }
    PrefixLengthAllDigits(d);
    assert d[..|d|] == d;
    var rest := d[|d|..];
    assert rest == [] && rest[..0] == [];
    assert ExponentOf(rest) == Some(0);
    var mantissa := DigitsValue(d) as real + DigitsValue(rest[..0]) as real / (Pow10(0) as real);
    assert mantissa == DigitsValue(d) as real by {
      assert Pow10(0) == 1 && DigitsValue(rest[..0]) == 0;
    }
    assert Scale10(mantissa, 0) == mantissa by {
      assert Pow10(0) == 1;
    }
    assert UnsignedDecimal(d) == FromExact(Scale10(mantissa, 0));
  }

  /** A plain run of decimal digits converts to its decimal value. */
  lemma StringToNumberOfDigits(d: string)
    requires d != [] && AllDigits(d)
    ensures StringToNumber(d) == FromExact(DigitsValue(d) as real)
  {
    assert IsDigit(d[0]) && IsDigit(d[|d| - 1]);
    TrimUnpadded(d);
    assert NonDecimalLiteral(d).None? by {
      if |d| >= 3 && d[0] == '0' {
        assert IsDigit(d[1]);
      }
    }
    assert d[0] != '+' && d[0] != '-';
    assert StringToNumber(d) == UnsignedDecimal(d);
    UnsignedDecimalOfDigits(d);
  }
}
