/** `parseMongoQueryParams`: paging parameters from untyped query strings. */
module Parsers {
  import opened Wrappers
  import opened JsString

  /** `QueryString | number`: a number, a string, a string array, a parsed
      query-string object, an array of such objects, or `undefined`. */
  datatype QueryParam =
    | NumberParam(n: int)
    | StringParam(s: string)
    | StringArrayParam(items: seq<string>)
    | QsObjectParam
    | QsObjectArrayParam(count: nat)
    | UndefinedParam

  /** The one error the parser can raise: reading `toString` of `undefined`. */
  datatype JsError = TypeError

  /** The numeric coercion `+s` of a string: an integer the model computes,
      `NaN`, or a number it recognises but does not compute (a fraction, an
      exponent, `Infinity`, or a hexadecimal, octal or binary literal). */
  datatype NumericValue = Integer(n: int) | NotANumber | OtherNumber

  /** What `parseParam` returns: `undefined`, an integer, or another number. */
  datatype ParsedParam = Unspecified | Value(n: int) | OtherValue

  /** The object `parseMongoQueryParams` returns. */
  datatype PagingOptions<S> = PagingOptions(limit: ParsedParam, skip: ParsedParam, sort: Option<S>)

  predicate IsDigit(c: char) {
    '0' <= c <= '9'
  }

  /** The value of the decimal digits of `s`, most significant first; only
      ever applied to a string of digits. */
  function DecimalValue(s: string): nat {
    if s == [] then 0
    else
      var c := s[|s| - 1];
      DecimalValue(s[..|s| - 1]) * 10 + (if IsDigit(c) then c as int - '0' as int else 0)
  }

  /** The number of decimal digits `s` begins with. */
  function LeadingDigits(s: string): (n: nat)
    ensures n <= |s|
  {
    if s != [] && IsDigit(s[0]) then 1 + LeadingDigits(s[1..]) else 0
  }

  predicate IsSign(c: char) {
    c == '+' || c == '-'
  }

  /** A non-empty run of decimal digits. */
  predicate IsDigits(s: string) {
    |s| > 0 && LeadingDigits(s) == |s|
  }

  /** A non-empty run of decimal digits, optionally signed. */
  predicate IsSignedDigits(s: string) {
    if |s| > 0 && IsSign(s[0]) then IsDigits(s[1..]) else IsDigits(s)
  }

  /** An optional `ExponentPart`: empty, or `e`/`E` and a signed run of digits. */
  predicate IsOptionalExponent(s: string) {
    s == [] || ((s[0] == 'e' || s[0] == 'E') && IsSignedDigits(s[1..]))
  }

  /** `StrUnsignedDecimalLiteral`: `Infinity`, `digits`, `digits.`, `digits.digits`
      or `.digits`, the last four with an optional exponent. */
  predicate IsUnsignedDecimalLiteral(s: string) {
    if s == "Infinity" then true
    else
      var a := LeadingDigits(s);
      if a < |s| && s[a] == '.' then
        var b := LeadingDigits(s[a + 1..]);
        (a > 0 || b > 0) && IsOptionalExponent(s[a + 1 + b..])
      else a > 0 && IsOptionalExponent(s[a..])
  }

  /** Every character of `s` is a digit of base 16, 8 or 2. */
  predicate AllOfBase(s: string, base: nat) {
    s == [] ||
    (var c := s[0];
     (if base == 16 then IsDigit(c) || ('a' <= c <= 'f') || ('A' <= c <= 'F')
      else if base == 8 then '0' <= c <= '7'
      else c == '0' || c == '1')
     && AllOfBase(s[1..], base))
  }

  /** `NonDecimalIntegerLiteral`: `0x`, `0o` or `0b` (either case) and at least one digit of that base. */
  predicate IsNonDecimalLiteral(s: string) {
    |s| > 2 && s[0] == '0' &&
    (   ((s[1] == 'x' || s[1] == 'X') && AllOfBase(s[2..], 16))
     || ((s[1] == 'o' || s[1] == 'O') && AllOfBase(s[2..], 8))
     || ((s[1] == 'b' || s[1] == 'B') && AllOfBase(s[2..], 2)))
  }

  /** `StrNumericLiteral`: a decimal literal with an optional sign, or a non-decimal one. */
  predicate IsNumericLiteral(s: string) {
    || IsUnsignedDecimalLiteral(s)
    || (s != [] && IsSign(s[0]) && IsUnsignedDecimalLiteral(s[1..]))
    || IsNonDecimalLiteral(s)
  }

  /** The numeric coercion `+s`: surrounding whitespace is ignored and the
      empty string is 0; an optional sign followed by decimal digits is that
      integer; any other numeric literal is a number left uncomputed; every
      other string is `NaN`. */
  function ToNumber(s: string): NumericValue {
    var t := Trim(s);
    if t == "" then Integer(0)
    else if IsDigits(t) then Integer(DecimalValue(t))
    else if t[0] == '-' && IsDigits(t[1..]) then Integer(0 - DecimalValue(t[1..]) as int)
    else if t[0] == '+' && IsDigits(t[1..]) then Integer(DecimalValue(t[1..]))
    else if IsNumericLiteral(t) then OtherNumber
    else NotANumber
  }

  /** `+s` as `parseParam` reports it: `NaN` is `undefined`. */
  function FromNumber(v: NumericValue): ParsedParam {
    match v
    case Integer(n) => Value(n)
    case NotANumber => Unspecified
    case OtherNumber => OtherValue
  }

  /** `items.join(sep)`. */
  function Join(items: seq<string>, sep: string): string {
    if items == [] then ""
    else if |items| == 1 then items[0]
    else items[0] + sep + Join(items[1..], sep)
  }

  function Repeat(s: string, n: nat): seq<string>
    ensures |Repeat(s, n)| == n
  {
    if n == 0 then [] else [s] + Repeat(s, n - 1)
  }

  /** `param.toString()` of a value that is neither a number nor a string. */
  function ToJsString(param: QueryParam): Result<string, JsError>
    requires !param.NumberParam? && !param.StringParam?
  {
    match param
    case StringArrayParam(items) => Success(Join(items, ","))
    case QsObjectParam => Success("[object Object]")
    case QsObjectArrayParam(count) => Success(Join(Repeat("[object Object]", count), ","))
    case UndefinedParam => Failure(TypeError)
  }

  /** `parseParam(param)`. */
  function ParseParam(param: QueryParam): Result<ParsedParam, JsError> {
    match param
    case NumberParam(n) => Success(Value(n))
    case StringParam(s) => Success(FromNumber(ToNumber(s)))
    case _ =>
      match ToJsString(param)
      case Failure(e) => Failure(e)
      case Success(text) => Success(FromNumber(ToNumber(text)))
  }

  /** `parseMongoQueryParams(limit, skip, sort)`, as written. */
  function ParseMongoQueryParams<S>(limit: QueryParam, skip: QueryParam, sort: Option<S>): Result<PagingOptions<S>, JsError> {
    match ParseParam(limit)
    case Failure(e) => Failure(e)
    case Success(l) =>
      match ParseParam(skip)
      case Failure(e) => Failure(e)
      case Success(s) => Success(PagingOptions(l, s, sort))
  }

  lemma {:induction false} DigitsAt(s: string, i: nat)
    requires LeadingDigits(s) == |s| && i < |s|
    ensures IsDigit(s[i])
  {
    if i > 0 {
      DigitsAt(s[1..], i - 1);
    }
  }

  /** A run of digits followed by a non-digit: the leading run is exactly the digits. */
  lemma {:induction false} DigitsThenStop(a: string, rest: string)
    requires LeadingDigits(a) == |a|
    requires rest == [] || !IsDigit(rest[0])
    ensures LeadingDigits(a + rest) == |a|
  {
    if a != [] {
      assert (a + rest)[1..] == a[1..] + rest;
      DigitsThenStop(a[1..], rest);
    } else {
      assert a + rest == rest;
    }
  }

  /** A run of digits is an unsigned decimal literal. */
  lemma DigitsAreLiteral(u: string)
    ensures IsDigits(u) ==> IsUnsignedDecimalLiteral(u)
  {
    if IsDigits(u) {
      assert u[LeadingDigits(u)..] == [];
    }
  }

  /** A trimmed string that is no numeric literal coerces to `NaN`. */
  lemma NonLiteralIsNaN(t: string)
    requires Trim(t) == t && t != [] && !IsNumericLiteral(t)
    ensures ToNumber(t) == NotANumber
  {
    DigitsAreLiteral(t);
    DigitsAreLiteral(t[1..]);
  }

  /** A trimmed numeric literal that is not a signed run of digits is a number
      the model leaves uncomputed. */
  lemma OtherLiteralIsOther(t: string)
    requires Trim(t) == t && t != [] && IsNumericLiteral(t) && !IsSignedDigits(t)
    ensures ToNumber(t) == OtherNumber
  {
  }

  /** A string of digits coerces to its decimal value. */
  lemma DigitsAreInteger(a: string)
    requires IsDigits(a)
    ensures ToNumber(a) == Integer(DecimalValue(a))
  {
    DigitsAt(a, 0);
    DigitsAt(a, |a| - 1);
    TrimPlain(a);
  }

  lemma DigitStartIsNotInfinity(t: string)
    requires |t| > 0 && IsDigit(t[0])
    ensures t != "Infinity"
  {
    assert "Infinity"[0] == 'I';
  }

  lemma FractionTail(t: string, a: string, b: string)
    requires IsDigits(a) && IsDigits(b) && t == a + "." + b
    requires t != "Infinity" && LeadingDigits(t) == |a|
    ensures IsUnsignedDecimalLiteral(t)
  {
    var n := LeadingDigits(t);
    assert t[n] == '.';
    var frac := t[n + 1..];
    assert frac == b;
    assert frac[|b|..] == [];
  }

  lemma FractionLeadingDigits(a: string, b: string)
    requires IsDigits(a) && IsDigits(b)
    ensures LeadingDigits(a + "." + b) == |a|
  {
    assert a + "." + b == a + ("." + b);
    DigitsThenStop(a, "." + b);
  }

  lemma FractionIsLiteral(a: string, b: string)
    requires IsDigits(a) && IsDigits(b)
    ensures LeadingDigits(a + "." + b) == |a|
    ensures IsUnsignedDecimalLiteral(a + "." + b)
  {
    var t := a + "." + b;
    FractionLeadingDigits(a, b);
    DigitsAt(a, 0);
    assert t[0] == a[0];
    DigitStartIsNotInfinity(t);
    FractionTail(t, a, b);
  }

  /** `digits.digits` (for example `'1.5'`) is a number the model leaves uncomputed. */
  lemma FractionIsOther(a: string, b: string)
    requires IsDigits(a) && IsDigits(b)
    ensures ToNumber(a + "." + b) == OtherNumber
  {
    var t := a + "." + b;
    DigitsAt(a, 0);
    DigitsAt(b, |b| - 1);
    assert t[0] == a[0] && t[|t| - 1] == b[|b| - 1];
    TrimPlain(t);
    FractionIsLiteral(a, b);
    assert !IsSign(t[0]) && !IsDigits(t);
    OtherLiteralIsOther(t);
  }

  lemma ExponentIsLiteral(a: string, b: string)
    requires IsDigits(a) && IsDigits(b)
    ensures IsUnsignedDecimalLiteral(a + "e" + b) && !IsSignedDigits(a + "e" + b)
  {
    var t := a + "e" + b;
    DigitsAt(a, 0);
    DigitsAt(b, 0);
    assert t[0] == a[0];
    DigitStartIsNotInfinity(t);
    assert t == a + ("e" + b);
    DigitsThenStop(a, "e" + b);
    assert t[|a|..] == "e" + b;
    assert ("e" + b)[1..] == b;
    assert IsOptionalExponent(t[|a|..]);
  }

  /** `digits e digits` (for example `'1e3'`) is a number the model leaves uncomputed. */
  lemma ExponentIsOther(a: string, b: string)
    requires IsDigits(a) && IsDigits(b)
    ensures ToNumber(a + "e" + b) == OtherNumber
  {
    var t := a + "e" + b;
    DigitsAt(a, 0);
    DigitsAt(b, |b| - 1);
    assert t[0] == a[0] && t[|t| - 1] == b[|b| - 1];
    TrimPlain(t);
    ExponentIsLiteral(a, b);
    OtherLiteralIsOther(t);
  }

  lemma {:induction false} HexDigitAt(s: string, i: nat)
    requires AllOfBase(s, 16) && i < |s|
    ensures IsDigit(s[i]) || ('a' <= s[i] <= 'f') || ('A' <= s[i] <= 'F')
  {
    if i > 0 {
      HexDigitAt(s[1..], i - 1);
    }
  }

  lemma HexIsLiteral(b: string)
    requires b != [] && AllOfBase(b, 16)
    ensures IsNumericLiteral("0x" + b) && !IsSignedDigits("0x" + b)
  {
    var t := "0x" + b;
    assert t[..2] == "0x" && t[2..] == b;
    assert IsNonDecimalLiteral(t);
    assert t == "0" + ("x" + b);
    DigitsThenStop("0", "x" + b);
  }

  /** `0x` and hexadecimal digits (for example `'0x10'`) is a number the model
      leaves uncomputed. */
  lemma HexIsOther(b: string)
    requires b != [] && AllOfBase(b, 16)
    ensures ToNumber("0x" + b) == OtherNumber
  {
    var t := "0x" + b;
    HexDigitAt(b, |b| - 1);
    assert t[0] == '0' && t[|t| - 1] == b[|b| - 1];
    TrimPlain(t);
    HexIsLiteral(b);
    OtherLiteralIsOther(t);
  }

  lemma InfinityIsOther()
    ensures ToNumber("Infinity") == OtherNumber
  {
    TrimPlain("Infinity");
    OtherLiteralIsOther("Infinity");
  }

  /** An object's `toString()`, `"[object Object]"`, is not a numeric literal. */
  lemma ObjectStringIsNaN()
    ensures ToNumber("[object Object]") == NotANumber
  {
    TrimPlain("[object Object]");
    NonLiteralIsNaN("[object Object]");
  }

  /** A number passes through; a string is its numeric coercion, `undefined`
      exactly when that is `NaN`; an array or object is judged by its
      `toString()`: its elements joined by commas, or `"[object Object]"`. */
  lemma ParseParamCases(n: int, s: string, items: seq<string>)
    ensures ParseParam(NumberParam(n)) == Success(Value(n))
    ensures ParseParam(StringParam(s)) == Success(Unspecified) <==> ToNumber(s) == NotANumber
    ensures ParseParam(StringParam(s)).Success?
    ensures ParseParam(StringArrayParam(items)) == ParseParam(StringParam(Join(items, ",")))
    ensures ParseParam(QsObjectParam) == Success(Unspecified)
  {
    ObjectStringIsNaN();
  }

  lemma TwentyIsTwenty()
    ensures ToNumber("20") == Integer(20)
  {
    DigitsAreInteger("20");
    assert DecimalValue("20") == 20 by {
      assert "20"[..1] == "2";
      assert DecimalValue("2") == 2 by { assert "2"[..0] == ""; }
    }
  }

  lemma AbcIsNaN()
    ensures ToNumber("abc") == NotANumber
  {
    TrimPlain("abc");
    NonLiteralIsNaN("abc");
  }

  /** `''` coerces to 0, `'20'` to 20 and `'abc'` to `NaN`. */
  lemma StringParamExamples()
    ensures ParseParam(StringParam("")) == Success(Value(0))
    ensures ParseParam(StringParam("20")) == Success(Value(20))
    ensures ParseParam(StringParam("abc")) == Success(Unspecified)
  {
    TwentyIsTwenty();
    AbcIsNaN();
  }

  lemma OneAndAHalfIsOther()
    ensures ToNumber("1.5") == OtherNumber
  {
    assert "1.5" == "1" + "." + "5";
    FractionIsOther("1", "5");
  }

  lemma ThousandIsOther()
    ensures ToNumber("1e3") == OtherNumber
  {
    assert "1e3" == "1" + "e" + "3";
    ExponentIsOther("1", "3");
  }

  lemma SixteenIsOther()
    ensures ToNumber("0x10") == OtherNumber
  {
    assert "0x10" == "0x" + "10";
    HexIsOther("10");
  }

  /** A fraction, an exponent, a hexadecimal literal and `Infinity` are
      numbers, though not ones the model computes. */
  lemma OtherNumberExamples()
    ensures ParseParam(StringParam("1.5")) == Success(OtherValue)
    ensures ParseParam(StringParam("1e3")) == Success(OtherValue)
    ensures ParseParam(StringParam("0x10")) == Success(OtherValue)
    ensures ParseParam(StringParam("Infinity")) == Success(OtherValue)
  {
    OneAndAHalfIsOther();
    ThousandIsOther();
    SixteenIsOther();
    InfinityIsOther();
  }

  lemma FiveIsFive()
    ensures ToNumber("5") == Integer(5)
  {
    DigitsAreInteger("5");
    assert DecimalValue("5") == 5 by { assert "5"[..0] == ""; }
  }

  lemma CommaListIsNaN()
    ensures ToNumber("1,2") == NotANumber
  {
    TrimPlain("1,2");
    NonLiteralIsNaN("1,2");
  }

  /** `['5']` coerces to 5, `['1', '2']` (`"1,2"`) to `NaN`, and an empty
      array of objects (`""`) to 0. */
  lemma ArrayParamExamples()
    ensures ParseParam(StringArrayParam(["5"])) == Success(Value(5))
    ensures ParseParam(StringArrayParam(["1", "2"])) == Success(Unspecified)
    ensures ParseParam(QsObjectArrayParam(0)) == Success(Value(0))
  {
    FiveIsFive();
    assert Join(["1", "2"], ",") == "1,2";
    CommaListIsNaN();
  }

  /** `limit` and `skip` are parsed independently by the same rule, and `sort`
      comes back untouched. */
  lemma ParseMongoQueryParamsFields<S>(limit: QueryParam, skip: QueryParam, sort: Option<S>)
    ensures var r := ParseMongoQueryParams(limit, skip, sort);
      && (r.Success? <==> ParseParam(limit).Success? && ParseParam(skip).Success?)
      && (r.Success? ==> r.value == PagingOptions(ParseParam(limit).value, ParseParam(skip).value, sort))
  {
  }

  /** As written, an `undefined` parameter reaches `param.toString()` and throws,
      so the default arguments of `get` (`limit` and `skip` both `undefined`)
      make the call fail. */
  lemma UndefinedParamThrows<S>(skip: QueryParam, sort: Option<S>)
    ensures ParseParam(UndefinedParam) == Failure(TypeError)
    ensures ParseMongoQueryParams(UndefinedParam, skip, sort) == Failure(TypeError)
    ensures ParseMongoQueryParams<S>(UndefinedParam, UndefinedParam, None).Failure?
  {
  }

  /** `parseParam` as evidently intended: an `undefined` parameter is an
      unspecified bound, like a non-numeric string. */
  function ParseParamIntended(param: QueryParam): ParsedParam {
    match param
    case UndefinedParam => Unspecified
    case _ => ParseParam(param).value
  }

  /** `parseMongoQueryParams` as evidently intended: it never throws. */
  function ParseMongoQueryParamsIntended<S>(limit: QueryParam, skip: QueryParam, sort: Option<S>): PagingOptions<S> {
    PagingOptions(ParseParamIntended(limit), ParseParamIntended(skip), sort)
  }

  /** The corrected parser agrees with the written one wherever that one
      succeeds, and leaves an `undefined` bound unspecified, so the default
      arguments give a query without paging bounds. */
  lemma IntendedParserAgrees<S>(limit: QueryParam, skip: QueryParam, sort: Option<S>)
    ensures ParseMongoQueryParams(limit, skip, sort).Success? ==>
              ParseMongoQueryParamsIntended(limit, skip, sort) == ParseMongoQueryParams(limit, skip, sort).value
    ensures ParseParamIntended(UndefinedParam) == Unspecified
    ensures ParseMongoQueryParamsIntended<S>(UndefinedParam, UndefinedParam, None) == PagingOptions(Unspecified, Unspecified, None)
  {
  }
}
