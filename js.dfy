/**
 * JavaScript values as the adapters see them: JSON documents, `undefined`,
 * truthiness, property reads, `||` defaults, template-literal interpolation
 * and the two string-to-number conversions the adapters rely on
 * (`parseInt(s, 10)` and `Number(v)`, finite numbers taken exactly).
 */
module Js {

  datatype Option<+T> = None | Some(value: T)

  /** Why an adapter operation threw. */
  datatype Error =
    | RequestFailed(status: int, statusText: string)  // makeRequest saw a non-ok HTTP response
    | NetworkFailed                                    // fetch rejected, or the body was not JSON
    | TypeError                                        // a property was read from null or undefined
    | MissingRefreshToken                              // refreshToken called without a refresh token
    | MediaRequired                                    // an Instagram post without media
    | NotCreated(step: string)                         // a workflow step answered without an id
    | MissingLineItemId                                // Twitter updateAd without line_item_id
    | DuplicateAccount                                 // the (user, platform) pair already has an account
    | MaxRetriesReached                                // the retry loop never invoked its function

  /** How an awaited promise settled: with a value, or by throwing. */
  datatype Outcome<+T> = Returns(value: T) | Throws(error: Error)

  datatype Json =
    | JNull
    | JBool(b: bool)
    | JNum(n: int)
    | JStr(s: string)
    | JArr(items: seq<Json>)
    | JObj(fields: map<string, Json>)

  /** A JavaScript value that may be `undefined` (represented by None). */
  type JsValue = Option<Json>

  /** The properties of a plain object literal. */
  type Fields = map<string, Json>

  predicate JsonTruthy(j: Json) {
    match j
    case JNull => false
    case JBool(b) => b
    case JNum(n) => n != 0
    case JStr(s) => s != ""
    case _ => true
  }

  /** `if (v)`: undefined, null, false, 0 and "" are falsy; arrays and objects never are. */
  predicate Truthy(v: JsValue) {
    v.Some? && JsonTruthy(v.value)
  }

  /** `if (s)` on an optional string. */
  predicate Present(s: Option<string>) {
    s.Some? && s.value != ""
  }

  /** `v.key` when `v` is known not to be null or undefined; a missing key or a primitive gives undefined. */
  function Field(v: JsValue, key: string): JsValue {
    if v.Some? && v.value.JObj? && key in v.value.fields then Some(v.value.fields[key]) else None
  }

  /** `v.key` as JavaScript evaluates it: reading from null or undefined throws a TypeError. */
  function Member(v: JsValue, key: string): Outcome<JsValue> {
    if v.None? || v.value.JNull? then Throws(TypeError) else Returns(Field(v, key))
  }

  /** `m.key` on an input dictionary. */
  function Lookup(m: Fields, key: string): JsValue {
    if key in m then Some(m[key]) else None
  }

  /** `v || fallback`. */
  function Or(v: JsValue, fallback: Json): Json {
    if Truthy(v) then v.value else fallback
  }

  /** `{ ...m, key: v }`; a key whose value is undefined is left out, as JSON.stringify does. */
  function With(m: Fields, key: string, v: JsValue): Fields {
    if v.Some? then m[key := v.value] else m
  }

  /** `if (cond) { m.key = j }`. */
  function WithIf(m: Fields, key: string, cond: bool, j: Json): Fields {
    if cond then m[key := j] else m
  }

  function Str(s: string): Json {
    JStr(s)
  }

  /** `v.length > 0` for the values the authentication probes look at. */
  predicate NonEmptyList(v: JsValue) {
    Truthy(v) &&
    match v.value
    case JArr(items) => |items| > 0
    case JStr(s) => |s| > 0
    case JObj(fields) => "length" in fields && fields["length"].JNum? && fields["length"].n > 0
    case _ => false
  }

  // ---------------------------------------------------------------------------
  // Strings

  predicate Contains(s: string, sub: string)
    decreases |s|
  {
    (|sub| <= |s| && s[..|sub|] == sub) || (|s| > 0 && Contains(s[1..], sub))
  }

  predicate IsDigit(c: char) {
    '0' <= c <= '9'
  }

  function DigitChar(d: nat): char
    requires d < 10
  {
    ('0' as int + d) as char
  }

  /** The value of a decimal digit (0 for any other character). */
  function DigitValue(c: char): nat {
    if IsDigit(c) then (c as int - '0' as int) as nat else 0
  }

  /** Decimal digits of a natural number, most significant first, no leading zeros. */
  function NatString(n: nat): string
    decreases n
  {
    if n < 10 then [DigitChar(n)] else NatString(n / 10) + [DigitChar(n % 10)]
  }

  /** `String(n)` for an integer. */
  function DecimalString(n: int): string {
    if n < 0 then "-" + NatString(-n) else NatString(n)
  }

  function Join(parts: seq<string>, sep: string): string {
    if |parts| == 0 then ""
    else if |parts| == 1 then parts[0]
    else parts[0] + sep + Join(parts[1..], sep)
  }

  /** `${j}` for a JSON value. Arrays join their elements with commas, null elements as "". */
  function JsonString(j: Json): string {
    match j
    case JNull => "null"
    case JBool(b) => if b then "true" else "false"
    case JNum(n) => DecimalString(n)
    case JStr(s) => s
    case JArr(items) =>
      Join(seq(|items|, i requires 0 <= i < |items| => if items[i].JNull? then "" else JsonString(items[i])), ",")
    case JObj(_) => "[object Object]"
  }

  /** `${v}`: undefined interpolates as "undefined". */
  function Interp(v: JsValue): string {
    match v
    case None => "undefined"
    case Some(j) => JsonString(j)
  }

  // ---------------------------------------------------------------------------
  // String to number

  /** The characters `parseInt` and `Number` skip as white space. */
  predicate IsSpace(c: char) {
    c == ' ' || c == '\t' || c == '\n' || c == '\r' || c == '\U{B}' || c == '\U{C}' ||
    c == '\U{A0}' || c == '\U{FEFF}' || c == '\U{1680}' || ('\U{2000}' <= c <= '\U{200A}') ||
    c == '\U{2028}' || c == '\U{2029}' || c == '\U{202F}' || c == '\U{205F}' || c == '\U{3000}'
  }

  function TrimStart(s: string): string
    decreases |s|
  {
    if |s| > 0 && IsSpace(s[0]) then TrimStart(s[1..]) else s
  }

  function TrimEnd(s: string): string
    decreases |s|
  {
    if |s| > 0 && IsSpace(s[|s| - 1]) then TrimEnd(s[..|s| - 1]) else s
  }

  /** The longest prefix of `s` made of decimal digits. */
  function DigitPrefix(s: string): (p: string)
    ensures |p| <= |s|
    decreases |s|
  {
    if |s| > 0 && IsDigit(s[0]) then [s[0]] + DigitPrefix(s[1..]) else ""
  }

  /** Every character of `s` is a decimal digit. */
  predicate AllDigits(s: string)
    decreases |s|
  {
    |s| == 0 || (IsDigit(s[0]) && AllDigits(s[1..]))
  }

  /** The value of a string of decimal digits, read most significant first. */
  function DigitsValue(d: string): nat
    decreases |d|
  {
    if |d| == 0 then 0 else DigitsValue(d[..|d| - 1]) * 10 + DigitValue(d[|d| - 1])
  }

  function UnsignedPart(t: string): string {
    if |t| > 0 && (t[0] == '-' || t[0] == '+') then t[1..] else t
  }

  /**
   * `parseInt(s, 10)`: skip leading white space, read an optional sign and the
   * longest run of digits after it; None stands for NaN (no digits at all).
   */
  function ParseInt(s: string): (r: Option<int>)
    ensures r.None? <==> DigitPrefix(UnsignedPart(TrimStart(s))) == ""
  {
    var t := TrimStart(s);
    var d := DigitPrefix(UnsignedPart(t));
    if d == "" then None
    else if |t| > 0 && t[0] == '-' then Some(-(DigitsValue(d) as int))
    else Some(DigitsValue(d) as int)
  }

  /** A finite number written in decimal: `mantissa` × 10^`exponent`. */
  datatype Decimal = Decimal(mantissa: int, exponent: int)

  function Pow10(k: nat): (p: nat)
    ensures p >= 1
  {
    if k == 0 then 1 else 10 * Pow10(k - 1)
  }

  /** The value of the digits of `x` followed by `k` digits of value `y`. */
  function Appended(x: int, k: nat, y: int): int {
    x * Pow10(k) + y
  }

  /** The number has no fractional part. */
  predicate Whole(d: Decimal) {
    d.exponent >= 0 || d.mantissa % Pow10(-d.exponent) == 0
  }

  /** The integer a whole number denotes. */
  function WholeValue(d: Decimal): int
    requires Whole(d)
  {
    if d.exponent >= 0 then d.mantissa * Pow10(d.exponent) else d.mantissa / Pow10(-d.exponent)
  }

  /** The number truncated toward zero, as `ToIntegerOrInfinity` does. */
  function Truncated(d: Decimal): int {
    if d.exponent >= 0 then d.mantissa * Pow10(d.exponent)
    else if d.mantissa >= 0 then d.mantissa / Pow10(-d.exponent)
    else -((-d.mantissa) / Pow10(-d.exponent))
  }

  /** The exponent part of a decimal literal: empty, or `e`/`E`, an optional sign and digits. */
  function ExponentPart(r: string): Option<int> {
    if r == "" then Some(0)
    else if r[0] == 'e' || r[0] == 'E' then
      var t := r[1..];
      var g := UnsignedPart(t);
      if g != "" && AllDigits(g) then Some(if t[0] == '-' then -(DigitsValue(g) as int) else DigitsValue(g) as int)
      else None
    else None
  }

  /**
   * An unsigned decimal literal: digits, an optional point with more digits
   * (at least one digit in all), and an optional exponent. Anything else,
   * `Infinity` included, is no finite number (None).
   */
  function DecimalLiteral(u: string): Option<Decimal> {
    var i := DigitPrefix(u);
    AfterIntegerDigits(i, u[|i|..])
  }

  /** The rest of a decimal literal once its integer digits `i` are read: an optional point and fraction digits. */
  function AfterIntegerDigits(i: string, r: string): Option<Decimal> {
    if |r| > 0 && r[0] == '.' then
      var f := DigitPrefix(r[1..]);
      LiteralParts(i, f, r[1..][|f|..])
    else LiteralParts(i, "", r)
  }

  /** A decimal literal with integer digits `i`, fraction digits `f` and the exponent text `x`. */
  function LiteralParts(i: string, f: string, x: string): Option<Decimal> {
    if |i| + |f| == 0 then None
    else
      match ExponentPart(x)
      case None => None
      case Some(e) => Some(Decimal(Appended(DigitsValue(i), |f|, DigitsValue(f)), e - |f|))
  }

  /** The value of a digit character in bases up to 16; 16 for a character that is no digit. */
  function RadixDigit(c: char): nat {
    if '0' <= c <= '9' then (c as int - '0' as int) as nat
    else if 'a' <= c <= 'f' then (c as int - 'a' as int + 10) as nat
    else if 'A' <= c <= 'F' then (c as int - 'A' as int + 10) as nat
    else 16
  }

  /** Every character of `d` is a digit below `radix`. */
  predicate RadixDigits(d: string, radix: nat)
    decreases |d|
  {
    |d| == 0 || (RadixDigit(d[0]) < radix && RadixDigits(d[1..], radix))
  }

  function RadixValue(d: string, radix: nat): nat
    decreases |d|
  {
    if |d| == 0 then 0 else RadixValue(d[..|d| - 1], radix) * radix + RadixDigit(d[|d| - 1])
  }

  /** The digits after a `0x`, `0o` or `0b` prefix: at least one, and each below the base. */
  function RadixLiteral(d: string, radix: nat): Option<Decimal> {
    if d != "" && RadixDigits(d, radix) then Some(Decimal(RadixValue(d, radix), 0)) else None
  }

  /**
   * `Number(s)` for a string: white space around the literal is ignored, a
   * blank string is 0, a `0x`/`0o`/`0b` prefix reads an unsigned integer in
   * base 16, 8 or 2, and otherwise an optionally signed decimal literal is
   * read. None stands for NaN and for the infinities.
   */
  function StringNumber(s: string): Option<Decimal> {
    var t := TrimEnd(TrimStart(s));
    if t == "" then Some(Decimal(0, 0))
    else if RadixPrefixed(t) then RadixLiteral(t[2..], RadixOf(t[1]))
    else SignedDecimal(t)
  }

  /** `0x`, `0o` or `0b`, in either case. */
  predicate RadixPrefixed(t: string) {
    |t| >= 2 && t[0] == '0' && t[1] in {'x', 'X', 'o', 'O', 'b', 'B'}
  }

  function RadixOf(c: char): nat {
    if c == 'x' || c == 'X' then 16 else if c == 'o' || c == 'O' then 8 else 2
  }

  /** A decimal literal with an optional sign. */
  function SignedDecimal(t: string): Option<Decimal>
    requires t != ""
  {
    if t[0] == '-' then
      match DecimalLiteral(t[1..])
      case Some(d) => Some(Decimal(-d.mantissa, d.exponent))
      case None => None
    else if t[0] == '+' then DecimalLiteral(t[1..])
    else DecimalLiteral(t)
  }

  /**
   * `Number(v)`, the conversion that `v * factor` and `+` on a number
   * apply: null and false are 0, true is 1, a string is read as a numeric
   * literal, and an array or object is first turned into its string
   * (`[]` is "", `[7]` is "7", an object is "[object Object]").
   */
  function ToNumber(j: Json): Option<Decimal> {
    match j
    case JNull => Some(Decimal(0, 0))
    case JBool(b) => Some(Decimal(if b then 1 else 0, 0))
    case JNum(n) => Some(Decimal(n, 0))
    case JStr(s) => StringNumber(s)
    case _ => StringNumber(JsonString(j))
  }

  /** `Number(v)` when it is a whole number. */
  function NumberOf(j: Json): Option<int> {
    match ToNumber(j)
    case Some(d) => if Whole(d) then Some(WholeValue(d)) else None
    case None => None
  }

  /**
   * `v * factor` as it reaches the wire: a whole product is sent as that
   * integer, and NaN or an infinity serialises as null.
   */
  function Scaled(j: Json, factor: int): Json {
    match ToNumber(j)
    case Some(d) =>
      var p := Decimal(d.mantissa * factor, d.exponent);
      if Whole(p) then JNum(WholeValue(p)) else JNull
    case None => JNull
  }

  // ---------------------------------------------------------------------------
  // Properties of the conversions

  /** Two digit strings written one after the other form a digit string. */
  lemma {:induction false} AllDigitsConcat(a: string, b: string)
    requires AllDigits(a) && AllDigits(b)
    ensures AllDigits(a + b)
    decreases |a|
  {
    if |a| == 0 {
      assert a + b == b;
    } else {
      AllDigitsConcat(a[1..], b);
      assert (a + b)[1..] == a[1..] + b;
    }
  }

  /** Each character of a digit string is a digit. */
  lemma {:induction false} DigitAt(s: string, k: int)
    requires AllDigits(s) && 0 <= k < |s|
    ensures IsDigit(s[k])
    decreases k
  {
    if k > 0 {
      DigitAt(s[1..], k - 1);
    }
  }

  lemma {:induction false} NatStringDigits(n: nat)
    ensures |NatString(n)| > 0 && AllDigits(NatString(n))
    decreases n
  {
    var c := [DigitChar(n % 10)];
    assert AllDigits(c) by {
      assert c[1..] == "";
    }
    if n >= 10 {
      NatStringDigits(n / 10);
      AllDigitsConcat(NatString(n / 10), c);
    }
  }

  /** Reading back the digits of `n` gives `n`. */
  lemma {:induction false} DigitsValueNatString(n: nat)
    ensures AllDigits(NatString(n)) && DigitsValue(NatString(n)) == n
    decreases n
  {
    NatStringDigits(n);
    if n >= 10 {
      var s := NatString(n);
      DigitsValueNatString(n / 10);
      assert s[..|s| - 1] == NatString(n / 10);
    }
  }

  lemma {:induction false} DigitPrefixOfDigits(d: string, rest: string)
    requires AllDigits(d)
    requires rest == "" || !IsDigit(rest[0])
    ensures DigitPrefix(d + rest) == d
    decreases |d|
  {
    if |d| == 0 {
      assert d + rest == rest;
    } else {
      assert (d + rest)[1..] == d[1..] + rest;
      DigitPrefixOfDigits(d[1..], rest);
    }
  }

  /** `parseInt` of text that starts with the digit run `g`. */
  lemma ParseIntUnsigned(s: string, g: string)
    requires s != "" && IsDigit(s[0]) && DigitPrefix(s) == g
    ensures ParseInt(s) == Some(DigitsValue(g) as int)
  {
  }

  /** `parseInt` of text that is a minus sign and then the digit run `g`. */
  lemma ParseIntMinus(s: string, g: string)
    requires s != "" && s[0] == '-' && DigitPrefix(s[1..]) == g && g != ""
    ensures ParseInt(s) == Some(-(DigitsValue(g) as int))
  {
  }

  /** `parseInt` of digits followed by a non-digit is the digits' value. */
  lemma ParseIntDigits(d: string, rest: string)
    requires d != "" && AllDigits(d)
    requires rest == "" || !IsDigit(rest[0])
    ensures ParseInt(d + rest) == Some(DigitsValue(d) as int)
  {
    DigitPrefixOfDigits(d, rest);
    assert (d + rest)[0] == d[0];
    ParseIntUnsigned(d + rest, d);
  }

  /** `parseInt` of a minus sign, digits and a non-digit is minus the digits' value. */
  lemma ParseIntNegativeDigits(d: string, rest: string)
    requires d != "" && AllDigits(d)
    requires rest == "" || !IsDigit(rest[0])
    ensures ParseInt("-" + (d + rest)) == Some(-(DigitsValue(d) as int))
  {
    DigitPrefixOfDigits(d, rest);
    assert ("-" + (d + rest))[1..] == d + rest;
    ParseIntMinus("-" + (d + rest), d);
  }

  /**
   * `parseInt` reads back what `String(n)` writes, whatever non-digit text
   * follows it ("120" and "120 seconds" both give 120).
   */
  lemma ParseIntDecimalString(n: int, rest: string)
    requires rest == "" || !IsDigit(rest[0])
    ensures ParseInt(DecimalString(n) + rest) == Some(n)
  {
    var m: nat := if n < 0 then -n else n;
    NatStringDigits(m);
    DigitsValueNatString(m);
    if n < 0 {
      assert DecimalString(n) + rest == "-" + (NatString(m) + rest);
      ParseIntNegativeDigits(NatString(m), rest);
    } else {
      ParseIntDigits(NatString(m), rest);
    }
  }

  lemma MultipleDiv(x: int, p: int)
    requires p >= 1
    ensures (x * p) % p == 0 && (x * p) / p == x
  {
    var q, r := (x * p) / p, (x * p) % p;
    assert x * p == q * p + r && 0 <= r < p;
    assert (x - q) * p == r;
    MulAwayFromZero(x - q, p);
  }

  lemma MulAwayFromZero(k: int, p: int)
    requires p >= 1
    ensures k >= 1 ==> k * p >= p
    ensures k <= -1 ==> k * p <= -p
  {
  }

  /** A whole number times an integer is whole, with the product as its value. */
  lemma WholeTimes(d: Decimal, factor: int)
    requires Whole(d)
    ensures Whole(Decimal(d.mantissa * factor, d.exponent))
    ensures WholeValue(Decimal(d.mantissa * factor, d.exponent)) == WholeValue(d) * factor
  {
    if d.exponent < 0 {
      var p := Pow10(-d.exponent);
      var q := d.mantissa / p;
      assert d.mantissa == q * p;
      MultipleDiv(q * factor, p);
      assert d.mantissa * factor == (q * factor) * p;
    } else {
      var p := Pow10(d.exponent);
      assert d.mantissa * factor * p == d.mantissa * p * factor;
    }
  }

  /** Multiplying a whole number by an integer factor sends the whole product. */
  lemma ScaledWhole(j: Json, factor: int)
    ensures NumberOf(j).Some? ==> Scaled(j, factor) == JNum(NumberOf(j).value * factor)
  {
    if NumberOf(j).Some? {
      WholeTimes(ToNumber(j).value, factor);
    }
  }

  /** The value of digits `a` followed by digits `b`. */
  lemma {:induction false} DigitsValueConcat(a: string, b: string)
    ensures DigitsValue(a + b) == Appended(DigitsValue(a), |b|, DigitsValue(b))
    decreases |b|
  {
    if |b| == 0 {
      assert a + b == a;
    } else {
      var b' := b[..|b| - 1];
      var c := DigitValue(b[|b| - 1]);
      assert (a + b)[..|a + b| - 1] == a + b';
      assert (a + b)[|a + b| - 1] == b[|b| - 1];
      DigitsValueConcat(a, b');
      assert DigitsValue(a + b) == DigitsValue(a + b') * 10 + c;
      assert DigitsValue(b) == DigitsValue(b') * 10 + c;
      ShiftDigit(DigitsValue(a), Pow10(|b'|), DigitsValue(b'), c);
    }
  }

  lemma ShiftDigit(x: int, p: int, y: int, c: int)
    ensures (x * p + y) * 10 + c == x * (10 * p) + (y * 10 + c)
  {
  }

  /** The digit run at the front of `i + rest`, and what follows it. */
  lemma LeadingDigits(i: string, rest: string)
    requires AllDigits(i)
    requires rest == "" || !IsDigit(rest[0])
    ensures DigitPrefix(i + rest) == i && (i + rest)[|i|..] == rest
  {
    DigitPrefixOfDigits(i, rest);
  }

  /** A literal that starts with the digits `i` continues after them with `r`. */
  lemma IntegerDigitsFirst(i: string, r: string)
    requires i != "" && AllDigits(i) && (r == "" || !IsDigit(r[0]))
    ensures DecimalLiteral(i + r) == AfterIntegerDigits(i, r)
  {
    LeadingDigits(i, r);
    assert (i + r)[0] == i[0];
  }

  /** A point and the digits `f` make `f` the fraction, with nothing after it. */
  lemma PointThenDigits(i: string, f: string)
    requires AllDigits(f)
    ensures AfterIntegerDigits(i, "." + f) == LiteralParts(i, f, "")
  {
    assert ("." + f)[1..] == f;
    assert f + "" == f;
    LeadingDigits(f, "");
  }

  /** An `e` and the digits `x` make `x` the exponent. */
  lemma ExponentThenDigits(i: string, x: string)
    requires x != "" && AllDigits(x)
    ensures AfterIntegerDigits(i, "e" + x) == LiteralParts(i, "", "e" + x)
    ensures ExponentPart("e" + x) == Some(DigitsValue(x) as int)
  {
    assert ("e" + x)[1..] == x;
    assert IsDigit(x[0]) && UnsignedPart(x) == x;
  }

  /** Integer digits `i`, fraction digits `f` and no exponent denote `i` and `f` read together, shifted by |f| places. */
  lemma PartsValue(i: string, f: string)
    requires i != ""
    ensures LiteralParts(i, f, "") == Some(Decimal(Appended(DigitsValue(i), |f|, DigitsValue(f)), -|f|))
  {
  }

  /** An unsigned literal of decimal digits alone is their value. */
  lemma DigitsLiteral(d: string)
    requires d != "" && AllDigits(d)
    ensures DecimalLiteral(d) == Some(Decimal(DigitsValue(d), 0))
  {
    IntegerDigitsFirst(d, "");
    assert d + "" == d;
    assert Pow10(0) == 1;
  }

  /** Digits, a point and digits: the fraction digits extend the mantissa and lower the exponent. */
  lemma PointLiteral(i: string, f: string)
    requires i != "" && AllDigits(i) && AllDigits(f)
    ensures DecimalLiteral(i + "." + f) == Some(Decimal(Appended(DigitsValue(i), |f|, DigitsValue(f)), -|f|))
  {
    assert i + "." + f == i + ("." + f);
    IntegerDigitsFirst(i, "." + f);
    PointThenDigits(i, f);
    PartsValue(i, f);
  }

  /** Integer digits `i`, no fraction and the exponent `e`. */
  lemma ExponentParts(i: string, x: string, e: int)
    requires i != "" && ExponentPart(x) == Some(e)
    ensures LiteralParts(i, "", x) == Some(Decimal(DigitsValue(i), e))
  {
    assert Pow10(0) == 1;
  }

  /** After the integer digits `i`, an `e` and the digits `x` give the exponent. */
  lemma ExponentTail(i: string, x: string)
    requires i != "" && x != "" && AllDigits(x)
    ensures AfterIntegerDigits(i, "e" + x) == Some(Decimal(DigitsValue(i), DigitsValue(x)))
  {
    ExponentThenDigits(i, x);
    ExponentParts(i, "e" + x, DigitsValue(x));
  }

  /** Digits, an `e` and digits: the exponent is the second run. */
  lemma ExponentLiteral(i: string, x: string)
    requires i != "" && AllDigits(i) && x != "" && AllDigits(x)
    ensures DecimalLiteral(i + "e" + x) == Some(Decimal(DigitsValue(i), DigitsValue(x)))
  {
    assert i + "e" + x == i + ("e" + x);
    IntegerDigitsFirst(i, "e" + x);
    ExponentTail(i, x);
  }

  /** A string that starts and ends with no white space is its own trimmed text. */
  lemma TrimmedAlready(t: string)
    requires t != "" && !IsSpace(t[0]) && !IsSpace(t[|t| - 1])
    ensures TrimEnd(TrimStart(t)) == t
  {
  }

  /** Text with nothing to trim and no radix prefix is read as a signed decimal literal. */
  lemma SignedText(t: string)
    requires t != "" && !IsSpace(t[0]) && !IsSpace(t[|t| - 1]) && !RadixPrefixed(t)
    ensures StringNumber(t) == SignedDecimal(t)
  {
    TrimmedAlready(t);
  }

  /** Text that starts and ends with a digit and has no radix prefix is read as an unsigned decimal literal. */
  lemma PlainLiteral(t: string)
    requires t != "" && IsDigit(t[0]) && IsDigit(t[|t| - 1]) && !RadixPrefixed(t)
    ensures StringNumber(t) == DecimalLiteral(t)
  {
    SignedText(t);
  }

  /** `Number` reads a non-empty run of decimal digits as its value. */
  lemma DigitsNumber(d: string)
    requires d != "" && AllDigits(d)
    ensures StringNumber(d) == Some(Decimal(DigitsValue(d), 0))
  {
    DigitAt(d, |d| - 1);
    assert !RadixPrefixed(d) by {
      if |d| >= 2 {
        DigitAt(d, 1);
      }
    }
    PlainLiteral(d);
    DigitsLiteral(d);
  }

  /** A minus sign in front of a literal that ends in a digit negates its mantissa. */
  lemma NegatedLiteral(d: string, m: int, e: int)
    requires d != "" && IsDigit(d[|d| - 1]) && DecimalLiteral(d) == Some(Decimal(m, e))
    ensures StringNumber("-" + d) == Some(Decimal(-m, e))
  {
    var t := "-" + d;
    assert t[0] == '-' && t[|t| - 1] == d[|d| - 1] && t[1..] == d;
    SignedText(t);
    MinusDecimal(t, m, e);
  }

  /** A signed decimal with a minus sign is the literal after it, negated. */
  lemma MinusDecimal(t: string, m: int, e: int)
    requires t != "" && t[0] == '-' && DecimalLiteral(t[1..]) == Some(Decimal(m, e))
    ensures SignedDecimal(t) == Some(Decimal(-m, e))
  {
  }

  /** `Number` reads a minus sign and a non-empty run of decimal digits of value `v` as -`v`. */
  lemma NegativeDigitsNumber(d: string, v: int)
    requires d != "" && AllDigits(d) && DigitsValue(d) == v
    ensures StringNumber("-" + d) == Some(Decimal(-v, 0))
  {
    DigitAt(d, |d| - 1);
    DigitsLiteral(d);
    NegatedLiteral(d, v, 0);
  }

  /** `Number` of two runs of digits written one after the other, of values `x` and `y`. */
  lemma DigitsConcatNumber(a: string, b: string, x: nat, y: nat)
    requires a != "" && AllDigits(a) && AllDigits(b)
    requires DigitsValue(a) == x && DigitsValue(b) == y
    ensures ToNumber(JStr(a + b)) == Some(Decimal(Appended(x, |b|, y), 0))
  {
    AllDigitsConcat(a, b);
    DigitsValueConcat(a, b);
    DigitsNumber(a + b);
  }

  /** `Number` of the digits of `a` followed by the digits of `b`. */
  lemma ConcatenatedNumber(a: nat, b: nat)
    ensures ToNumber(JStr(NatString(a) + NatString(b))) == Some(Decimal(Appended(a, |NatString(b)|, b), 0))
  {
    NatStringDigits(a);
    NatStringDigits(b);
    DigitsValueNatString(a);
    DigitsValueNatString(b);
    DigitsConcatNumber(NatString(a), NatString(b), a, b);
  }

  /** An integer read as a decimal with exponent 0 is whole and is itself. */
  lemma WholeInteger(n: int)
    ensures Whole(Decimal(n, 0)) && WholeValue(Decimal(n, 0)) == n && Truncated(Decimal(n, 0)) == n
  {
    assert Pow10(0) == 1;
  }

  /** `Number` reads back what `String(n)` writes. */
  lemma NumberOfDecimalString(n: int)
    ensures ToNumber(JStr(DecimalString(n))) == Some(Decimal(n, 0))
    ensures NumberOf(JStr(DecimalString(n))) == Some(n)
  {
    var m: nat := if n < 0 then -n else n;
    NatStringDigits(m);
    DigitsValueNatString(m);
    if n < 0 {
      NegativeDigitsNumber(NatString(m), m);
    } else {
      DigitsNumber(NatString(m));
    }
    assert ToNumber(JStr(DecimalString(n))) == Some(Decimal(n, 0));
    WholeInteger(n);
  }

  /** The second character of digits followed by `rest` is no radix letter. */
  lemma NoRadixPrefix(i: string, rest: string)
    requires i != "" && AllDigits(i) && rest != "" && (rest[0] == '.' || rest[0] == 'e')
    ensures !RadixPrefixed(i + rest)
  {
    var u := i + rest;
    if |i| >= 2 {
      assert u[1] == i[1];
    } else {
      assert u[1] == rest[0];
    }
  }

  /** The whole number a string reads as. */
  lemma WholeString(s: string, d: Decimal)
    requires StringNumber(s) == Some(d) && Whole(d)
    ensures NumberOf(JStr(s)) == Some(WholeValue(d))
  {
  }

  /** Digits, an `e` and digits start and end with a digit and carry no radix prefix. */
  lemma ExponentShape(i: string, x: string)
    requires i != "" && AllDigits(i) && x != "" && AllDigits(x)
    ensures var u := i + "e" + x; u != "" && IsDigit(u[0]) && IsDigit(u[|u| - 1]) && !RadixPrefixed(u)
  {
    var u := i + "e" + x;
    assert u == i + ("e" + x) && u[0] == i[0] && u[|u| - 1] == x[|x| - 1];
    NoRadixPrefix(i, "e" + x);
  }

  /** `Number` of digits, an `e` and digits. */
  lemma ExponentText(i: string, x: string)
    requires i != "" && AllDigits(i) && x != "" && AllDigits(x)
    ensures StringNumber(i + "e" + x) == Some(Decimal(DigitsValue(i), DigitsValue(x)))
  {
    ExponentLiteral(i, x);
    ExponentShape(i, x);
    PlainLiteral(i + "e" + x);
  }

  /** An exponent scales the digits: "<d>e<k>" is d × 10^k ("1e3" is 1000). */
  lemma ExponentNumber(d: nat, k: nat)
    ensures NumberOf(JStr(NatString(d) + "e" + NatString(k))) == Some(d * Pow10(k))
  {
    NatStringDigits(d);
    NatStringDigits(k);
    DigitsValueNatString(d);
    DigitsValueNatString(k);
    ExponentText(NatString(d), NatString(k));
    WholeString(NatString(d) + "e" + NatString(k), Decimal(d, k));
  }

  /** Digits, a point and digits start and end with a digit and carry no radix prefix. */
  lemma PointShape(i: string, f: string)
    requires i != "" && AllDigits(i) && f != "" && AllDigits(f)
    ensures var u := i + "." + f; u != "" && IsDigit(u[0]) && IsDigit(u[|u| - 1]) && !RadixPrefixed(u)
  {
    var u := i + "." + f;
    assert u == i + ("." + f) && u[0] == i[0] && u[|u| - 1] == f[|f| - 1];
    NoRadixPrefix(i, "." + f);
  }

  /** `Number` of digits, a point and digits. */
  lemma PointText(i: string, f: string)
    requires i != "" && AllDigits(i) && f != "" && AllDigits(f)
    ensures StringNumber(i + "." + f) == Some(Decimal(Appended(DigitsValue(i), |f|, DigitsValue(f)), -|f|))
  {
    PointLiteral(i, f);
    PointShape(i, f);
    PlainLiteral(i + "." + f);
  }

  /** Digits of value `v` followed by ".0" read as `v` tenths times ten. */
  lemma PointZeroText(i: string, v: nat)
    requires i != "" && AllDigits(i) && DigitsValue(i) == v
    ensures StringNumber(i + ".0") == Some(Decimal(v * 10, -1))
  {
    AppendedZero(v);
    PointText(i, "0");
    assert i + "." + "0" == i + ".0";
  }

  /** A single "0" is a digit string, and appending it multiplies by ten. */
  lemma AppendedZero(x: int)
    ensures AllDigits("0") && -|"0"| == -1
    ensures Appended(x, |"0"|, DigitsValue("0")) == x * 10
  {
    assert "0"[1..] == "" && "0"[..0] == "";
    assert Pow10(1) == 10;
  }

  /** `v` × 10 tenths is the whole number `v`. */
  lemma TenthsWhole(v: nat)
    ensures Whole(Decimal(v * 10, -1)) && WholeValue(Decimal(v * 10, -1)) == v
  {
    assert Pow10(1) == 10;
    MultipleDiv(v, 10);
  }

  /** A point followed by a zero leaves a whole number: "<d>.0" is d ("12.0" is 12). */
  lemma PointZeroNumber(d: nat)
    ensures NumberOf(JStr(NatString(d) + ".0")) == Some(d)
  {
    NatStringDigits(d);
    DigitsValueNatString(d);
    PointZeroText(NatString(d), d);
    TenthsWhole(d);
    WholeString(NatString(d) + ".0", Decimal(d * 10, -1));
  }

  /** A digit string of length k is below 10^k. */
  lemma {:induction false} DigitsValueBelow(f: string)
    ensures DigitsValue(f) < Pow10(|f|)
    decreases |f|
  {
    if |f| > 0 {
      DigitsValueBelow(f[..|f| - 1]);
    }
  }

  /** Appending k digits of value y below 10^k leaves y as the remainder. */
  lemma AppendedRemainder(x: int, k: nat, y: int)
    requires 0 <= y < Pow10(k)
    ensures Appended(x, k, y) % Pow10(k) == y
  {
    RemainderOfMultiplePlus(x, Pow10(k), y);
  }

  lemma RemainderOfMultiplePlus(x: int, p: int, y: int)
    requires 0 <= y < p
    ensures (x * p + y) % p == y
  {
    var q, r := (x * p + y) / p, (x * p + y) % p;
    assert x * p + y == q * p + r && 0 <= r < p;
    SubtractProducts(x, q, p);
    MulAwayFromZero(x - q, p);
  }

  lemma SubtractProducts(x: int, q: int, p: int)
    ensures (x - q) * p == x * p - q * p
  {
  }

  /**
   * A fraction that is not zero leaves a number that is not whole: "<d>.<f>"
   * is d followed by the digits of f, shifted |f| places ("1.5" is 15 tenths),
   * and it has no integer value.
   */
  lemma FractionNumber(d: nat, f: string)
    requires f != "" && AllDigits(f) && DigitsValue(f) > 0
    ensures ToNumber(JStr(NatString(d) + "." + f)) == Some(Decimal(Appended(d, |f|, DigitsValue(f)), -|f|))
    ensures NumberOf(JStr(NatString(d) + "." + f)) == None
  {
    NatStringDigits(d);
    DigitsValueNatString(d);
    PointText(NatString(d), f);
    DigitsValueBelow(f);
    AppendedRemainder(d, |f|, DigitsValue(f));
  }

  /** The digit of value `d` in bases up to 16, lower-case letters above 9. */
  function RadixChar(d: nat): (c: char)
    requires d < 16
    ensures RadixDigit(c) == d && !IsSpace(c)
  {
    if d < 10 then DigitChar(d) else ('a' as int + d - 10) as char
  }

  /** The digits of `n` in base `radix` (2 to 16), most significant first. */
  function RadixString(n: nat, radix: nat): string
    requires 2 <= radix <= 16
    decreases n
  {
    if n < radix then [RadixChar(n)] else RadixString(n / radix, radix) + [RadixChar(n % radix)]
  }

  lemma {:induction false} RadixDigitsConcat(a: string, b: string, radix: nat)
    requires RadixDigits(a, radix) && RadixDigits(b, radix)
    ensures RadixDigits(a + b, radix)
    decreases |a|
  {
    if |a| == 0 {
      assert a + b == b;
    } else {
      RadixDigitsConcat(a[1..], b, radix);
      assert (a + b)[1..] == a[1..] + b;
    }
  }

  /** The base-`radix` digits of `n` are digits of that base and end in no white space. */
  lemma {:induction false} RadixStringDigits(n: nat, radix: nat)
    requires 2 <= radix <= 16
    ensures var s := RadixString(n, radix); s != "" && RadixDigits(s, radix) && !IsSpace(s[|s| - 1])
    decreases n
  {
    if n >= radix {
      DivSmaller(n, radix);
      RadixStringDigits(n / radix, radix);
      RadixDigitAppended(RadixString(n / radix, radix), n % radix, radix);
    } else {
      RadixDigitAppended("", n, radix);
      assert "" + [RadixChar(n)] == [RadixChar(n)];
    }
  }

  /** A run of base-`radix` digits with one more digit appended. */
  lemma RadixDigitAppended(p: string, d: nat, radix: nat)
    requires d < radix <= 16 && RadixDigits(p, radix)
    ensures var s := p + [RadixChar(d)]; RadixDigits(s, radix) && !IsSpace(s[|s| - 1])
  {
    var c := [RadixChar(d)];
    assert RadixDigits(c, radix) by {
      assert c[1..] == "";
    }
    RadixDigitsConcat(p, c, radix);
  }

  /** The base-`radix` digits of `n` read back as `n`. */
  lemma {:induction false} RadixStringValue(n: nat, radix: nat)
    requires 2 <= radix <= 16
    ensures RadixValue(RadixString(n, radix), radix) == n
    decreases n
  {
    if n >= radix {
      DivSmaller(n, radix);
      RadixStringValue(n / radix, radix);
      RadixValueAppended(RadixString(n / radix, radix), n % radix, radix);
      DivThenMod(n, radix);
    } else {
      RadixValueAppended("", n, radix);
      assert "" + [RadixChar(n)] == [RadixChar(n)];
    }
  }

  /** One more digit `d` multiplies the value by the base and adds `d`. */
  lemma RadixValueAppended(p: string, d: nat, radix: nat)
    requires d < 16
    ensures RadixValue(p + [RadixChar(d)], radix) == RadixValue(p, radix) * radix + d
  {
    var s := p + [RadixChar(d)];
    assert s[..|s| - 1] == p && s[|s| - 1] == RadixChar(d);
  }

  lemma DivSmaller(n: nat, radix: nat)
    requires radix >= 2
    ensures n / radix <= n && (n >= 1 ==> n / radix < n)
  {
  }

  lemma DivThenMod(n: nat, radix: nat)
    requires radix >= 1
    ensures (n / radix) * radix + n % radix == n
  {
  }

  /** One of the letters that follow the `0` of a radix prefix. */
  predicate RadixLetter(c: char) {
    c == 'x' || c == 'X' || c == 'o' || c == 'O' || c == 'b' || c == 'B'
  }

  /**
   * A `0x`, `0o` or `0b` prefix in either case reads the rest in base 16, 8
   * or 2: the prefix and the digits of `n` in that base give `n` ("0x10" is 16).
   */
  lemma RadixNumber(c: char, n: nat)
    requires RadixLetter(c)
    ensures NumberOf(JStr("0" + [c] + RadixString(n, RadixOf(c)))) == Some(n)
  {
    var d := RadixString(n, RadixOf(c));
    var t := "0" + [c] + d;
    RadixStringDigits(n, RadixOf(c));
    RadixStringValue(n, RadixOf(c));
    assert t[0] == '0' && t[1] == c && t[2..] == d && t[|t| - 1] == d[|d| - 1];
    TrimmedAlready(t);
    WholeInteger(n);
  }

  /** After a sign, a radix prefix is no decimal literal: its letter ends the integer digits "0". */
  lemma RadixAfterSign(c: char, d: string)
    requires RadixLetter(c)
    ensures DecimalLiteral("0" + [c] + d) == None
  {
    var u := "0" + [c] + d;
    assert u == "0" + ([c] + d);
    assert AllDigits("0") by {
      assert "0"[1..] == "";
    }
    LeadingDigits("0", [c] + d);
    assert ([c] + d)[0] == c;
  }

  /**
   * A radix prefix takes no sign: a minus or plus sign in front of `0x`,
   * `0o` or `0b` and any digits makes NaN ("-0x10" is NaN).
   */
  lemma SignedRadixNumber(sign: char, c: char, n: nat)
    requires (sign == '-' || sign == '+') && RadixLetter(c)
    ensures ToNumber(JStr([sign] + "0" + [c] + RadixString(n, RadixOf(c)))) == None
  {
    var d := RadixString(n, RadixOf(c));
    var t := [sign] + "0" + [c] + d;
    RadixStringDigits(n, RadixOf(c));
    assert t[0] == sign && t[1] == '0' && t[1..] == "0" + [c] + d && t[|t| - 1] == d[|d| - 1];
    SignedText(t);
    RadixAfterSign(c, d);
  }

  /** Text that starts with neither a digit nor a point is no decimal literal. */
  lemma NoLeadingDigit(u: string)
    requires u != "" && !IsDigit(u[0]) && u[0] != '.'
    ensures DecimalLiteral(u) == None
  {
    assert DigitPrefix(u) == "";
    assert u[|""|..] == u;
  }

  /** "true" and "false" are no number text: `Number` reads them through the array as NaN. */
  lemma BoolText(b: bool)
    ensures StringNumber(JsonString(JBool(b))) == None
  {
    var t := if b then "true" else "false";
    assert JsonString(JBool(b)) == t;
    assert t[0] != '0' && t[0] != '-' && t[0] != '+' && !IsSpace(t[0]) && !IsSpace(t[|t| - 1]);
    SignedText(t);
    NoLeadingDigit(t);
  }

  /** A one-element array's text is its element's, with null as the empty string. */
  lemma SingletonText(x: Json)
    ensures JsonString(JArr([x])) == if x.JNull? then "" else JsonString(x)
  {
  }

  /**
   * An array is read through its text: the empty array is 0, and a
   * one-element array reads as its element ([7] is 7, ["12"] is 12), except
   * that a boolean element reads as NaN ("true" is no number text).
   */
  lemma ArrayNumber(x: Json)
    ensures ToNumber(JArr([])) == Some(Decimal(0, 0))
    ensures x.JBool? ==> ToNumber(JArr([x])) == None
    ensures !x.JBool? ==> ToNumber(JArr([x])) == ToNumber(x)
  {
    assert JsonString(JArr([])) == "";
    SingletonText(x);
    match x
    case JNum(n) =>
      NumberOfDecimalString(n);
    case JBool(b) =>
      BoolText(b);
    case _ =>
  }

  /** Every character of `s` is white space. */
  predicate AllSpaces(s: string) {
    forall k :: 0 <= k < |s| ==> IsSpace(s[k])
  }

  lemma {:induction false} TrimStartPadding(pre: string, t: string)
    requires AllSpaces(pre) && t != "" && !IsSpace(t[0])
    ensures TrimStart(pre + t) == t
    decreases |pre|
  {
    if |pre| == 0 {
      assert pre + t == t;
    } else {
      assert (pre + t)[0] == pre[0] && (pre + t)[1..] == pre[1..] + t;
      TrimStartPadding(pre[1..], t);
    }
  }

  lemma {:induction false} TrimEndPadding(t: string, post: string)
    requires AllSpaces(post) && t != "" && !IsSpace(t[|t| - 1])
    ensures TrimEnd(t + post) == t
    decreases |post|
  {
    if |post| == 0 {
      assert t + post == t;
    } else {
      var u := t + post;
      assert u[|u| - 1] == post[|post| - 1] && u[..|u| - 1] == t + post[..|post| - 1];
      TrimEndPadding(t, post[..|post| - 1]);
    }
  }

  /** White space around a text that starts and ends with something else is trimmed away. */
  lemma Padded(pre: string, t: string, post: string)
    requires AllSpaces(pre) && AllSpaces(post) && t != "" && !IsSpace(t[0]) && !IsSpace(t[|t| - 1])
    ensures StringNumber(pre + t + post) == StringNumber(t)
  {
    assert pre + t + post == pre + (t + post);
    TrimStartPadding(pre, t + post);
    TrimEndPadding(t, post);
    TrimmedAlready(t);
  }

  /**
   * The infinities are no finite number: "Infinity" with an optional sign
   * and any white space around it comes out None.
   */
  lemma InfinityNumber(pre: string, sign: string, post: string)
    requires AllSpaces(pre) && AllSpaces(post) && (sign == "" || sign == "-" || sign == "+")
    ensures ToNumber(JStr(pre + sign + "Infinity" + post)) == None
  {
    var t := sign + "Infinity";
    assert pre + sign + "Infinity" + post == pre + t + post;
    Padded(pre, t, post);
    TrimmedAlready(t);
    if sign != "" {
      assert t[1..] == "Infinity";
    }
  }

  /** A string with no digit after the optional sign is NaN, whatever follows. */
  lemma ParseIntNoDigits(s: string)
    requires var u := UnsignedPart(TrimStart(s)); u == "" || !IsDigit(u[0])
    ensures ParseInt(s).None?
  {
  }
}
