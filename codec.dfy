/**
  `deserde_from_str`: a field that the engine sends as a JSON string holding
  a number. An empty string stands for the type's default value; any other
  string goes to the type's `FromStr`. The generic decoder takes `FromStr`
  and `Default` as parameters; `DeserdeI32` instantiates them for `i32`.
*/
module Codec {
  import opened Wrappers
  import opened JsonValue

  /** The text the visitor's `expecting` reports when the value is not a string. */
  const Expecting := "valid json object"

  datatype CodecError =
    | NotAString(expected: string)  // the JSON value is not a string
    | ParseError(text: string)      // `FromStr` refused the (non-empty) text

  /**
    The visitor: only a JSON string is accepted; "" gives `default`, any
    other string the result of `parse`, and a string `parse` refuses is an
    error (the default is not substituted).
  */
  function DeserdeFromStr<T>(j: Json, parse: string -> Option<T>, default: T): (r: Result<T, CodecError>)
    ensures j == JStr("") ==> r == Success(default)
    ensures j.JStr? && j.s != "" ==> (r.Success? <==> parse(j.s).Some?)
    ensures j.JStr? && j.s != "" && r.Success? ==> r.value == parse(j.s).value
    ensures j.JStr? && j.s != "" && parse(j.s).None? ==> r == Failure(ParseError(j.s))
    ensures !j.JStr? ==> r == Failure(NotAString(Expecting))
  {
    match j
    case JStr(value) =>
      if value == "" then Success(default)
      else
        (match parse(value)
         case Some(v) => Success(v)
         case None => Failure(ParseError(value)))
    case _ => Failure(NotAString(Expecting))
  }

  // ---------------------------------------------------------------------
  // `i32::from_str` and `i32`'s decimal `Display`.
  // ---------------------------------------------------------------------

  predicate IsDigit(c: char) {
    '0' <= c <= '9'
  }

  predicate AllDigits(s: string) {
    forall i :: 0 <= i < |s| ==> IsDigit(s[i])
  }

  function DigitValue(c: char): nat
    requires IsDigit(c)
  {
    (c as int) - ('0' as int)
  }

  function DigitChar(d: nat): (c: char)
    requires d < 10
    ensures IsDigit(c) && DigitValue(c) == d
  {
    ('0' as int + d) as char
  }

  /** The number a string of decimal digits denotes (leading zeros allowed). */
  function DigitsValue(s: string): nat
    requires AllDigits(s)
    decreases |s|
  {
    if s == [] then 0 else DigitsValue(s[..|s| - 1]) * 10 + DigitValue(s[|s| - 1])
  }

  /**
    `i32::from_str`: an optional leading '+' or '-', then one or more decimal
    digits, whose value must fit in 32 bits. A lone sign, an empty string or
    any other character is refused, and so is a value out of range.
  */
  function ParseI32(s: string): (r: Option<I32>)
    ensures s == [] ==> r.None?
    ensures r.Some? && r.value < 0 ==> s[0] == '-'
    ensures r.Some? ==> IsDigit(s[0]) || s[0] == '+' || s[0] == '-'
    ensures r.Some? ==> forall i :: 0 < i < |s| ==> IsDigit(s[i])
    ensures r.Some? ==> IsDigit(s[|s| - 1])
  {
    if s == [] then None
    else if |s| == 1 && (s[0] == '+' || s[0] == '-') then None
    else
      var negative := s[0] == '-';
      var digits := if s[0] == '+' || s[0] == '-' then s[1..] else s;
      if !AllDigits(digits) then None
      else
        var v: int := if negative then -(DigitsValue(digits) as int) else DigitsValue(digits);
        if IsI32(v) then Some(v) else None
  }

  /** The decimal digits of a natural number, without leading zeros. */
  function Digits(n: nat): (s: string)
    ensures |s| > 0 && AllDigits(s)
    ensures n > 0 ==> s[0] != '0'
  {
    if n < 10 then [DigitChar(n)] else Digits(n / 10) + [DigitChar(n % 10)]
  }

  /** `i32`'s `Display`: '-' before the digits of a negative number. */
  function Decimal(n: I32): (s: string)
    ensures |s| > 0
    ensures n < 0 <==> s[0] == '-'
  {
    if n < 0 then "-" + Digits(-(n as int)) else Digits(n)
  }

  /** `deserde_from_str` with `T = i32`, whose default is 0. */
  function DeserdeI32(j: Json): (r: Result<I32, CodecError>)
    ensures j == JStr("") ==> r == Success(0)
    ensures r.Success? <==> j.JStr? && (j.s == "" || ParseI32(j.s).Some?)
    ensures r.Success? && j.s != "" ==> Some(r.value) == ParseI32(j.s)
  {
    DeserdeFromStr(j, ParseI32, 0)
  }

  lemma {:induction false} DigitsValueOfDigits(n: nat)
    ensures DigitsValue(Digits(n)) == n
  {
    if n >= 10 {
      DigitsValueOfDigits(n / 10);
      var s := Digits(n);
      assert s[..|s| - 1] == Digits(n / 10);
    }
  }

  /** Parsing the decimal text of any 32-bit number gives that number back. */
  lemma ParseDecimal(n: I32)
    ensures ParseI32(Decimal(n)) == Some(n)
  {
    var s := Decimal(n);
    if n < 0 {
      DigitsValueOfDigits(-(n as int));
      assert s[1..] == Digits(-(n as int));
    } else {
      DigitsValueOfDigits(n);
    }
  }

  /**
    The value of every text `i32::from_str` can see: an optional sign and a
    non-empty run of digits (leading zeros allowed) denote the signed value
    of the digits, accepted exactly when it fits in 32 bits. Together with
    the form `ParseI32` demands of what it accepts, this fixes its result on
    every input.
  */
  lemma ParseSignedDigits(sign: string, ds: string)
    requires sign == "" || sign == "+" || sign == "-"
    requires ds != [] && AllDigits(ds)
    ensures var v := if sign == "-" then -(DigitsValue(ds) as int) else DigitsValue(ds) as int;
            ParseI32(sign + ds) == (if IsI32(v) then Some(v) else None)
  {
    var s := sign + ds;
    if sign != "" {
      assert s[1..] == ds;
    } else {
      assert s == ds;
    }
  }

  /** "-0" and "-05" keep their sign and digits: 0 and -5. */
  lemma NegativeLeadingZeros()
    ensures ParseI32("-0") == Some(0)
    ensures ParseI32("-05") == Some(-5)
  {
    ParseSignedDigits("-", "0");
    ParseSignedDigits("-", "05");
    assert DigitsValue("05") == DigitsValue("0") * 10 + 5;
  }

  /** An empty string decodes to the default, 0. */
  lemma EmptyIsZero()
    ensures DeserdeI32(JStr("")) == Success(0)
  {
  }

  /** The decimal text of any 32-bit number decodes to that number. */
  lemma DecimalTextDecodes(n: I32)
    ensures DeserdeI32(JStr(Decimal(n))) == Success(n)
  {
    ParseDecimal(n);
  }

  /**
    A character other than a digit makes the text unparseable, hence an
    error; only the first position may instead hold a sign.
  */
  lemma NonDigitRejected(s: string, i: nat)
    requires i < |s| && !IsDigit(s[i]) && (i == 0 ==> s[0] != '+' && s[0] != '-')
    ensures ParseI32(s) == None
    ensures DeserdeI32(JStr(s)) == Failure(ParseError(s))
  {
    if |s| > 1 && (s[0] == '+' || s[0] == '-') {
      assert s[1..][i - 1] == s[i];
    }
  }

  /** A value beyond the 32-bit range is refused rather than wrapped, so it decodes to an error, not to 0. */
  lemma OverflowRejected(n: nat)
    requires !IsI32(n)
    ensures ParseI32(Digits(n)) == None
    ensures ParseI32("-" + Digits(n + 1)) == None
    ensures DeserdeI32(JStr(Digits(n))) == Failure(ParseError(Digits(n)))
  {
    DigitsValueOfDigits(n);
    DigitsValueOfDigits(n + 1);
    assert ("-" + Digits(n + 1))[1..] == Digits(n + 1);
  }

  /** A sign alone is refused. */
  lemma LoneSignRejected()
    ensures ParseI32("-") == None && ParseI32("+") == None
  {
  }

  lemma {:induction false} LeadingZeroValue(s: string)
    requires AllDigits(s)
    ensures AllDigits("0" + s) && DigitsValue("0" + s) == DigitsValue(s)
    decreases |s|
  {
    var t := "0" + s;
    if s != [] {
      LeadingZeroValue(s[..|s| - 1]);
      assert t[..|t| - 1] == "0" + s[..|s| - 1];
    }
  }

  /** A leading '+' and a leading zero are both accepted and change nothing. */
  lemma PlusAndLeadingZeroAccepted(n: I32)
    requires n >= 0
    ensures ParseI32("+" + Digits(n)) == Some(n)
    ensures ParseI32("0" + Digits(n)) == Some(n)
  {
    DigitsValueOfDigits(n);
    LeadingZeroValue(Digits(n));
    assert ("+" + Digits(n))[1..] == Digits(n);
  }

  /** Only JSON strings are accepted; a number, even a valid one, is refused. */
  lemma NumberRejected(n: int)
    ensures DeserdeI32(JInt(n)) == Failure(NotAString(Expecting))
  {
  }
}
