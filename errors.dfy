/**
 * The errors the HTTP API client returns, and the text of the ones it
 * declares itself. Errors coming from collaborators (the JSON encoder and
 * decoder, the endpoint resolver, the HTTP layer) are carried with their
 * message; the error a server puts into a reply is carried as it came.
 */
module Errors {
  import opened Base

  /** The structured error a server reply may carry. */
  datatype ReplyError = ReplyError(code: int, message: string)

  datatype Error =
    | ErrMalformedResponse
    | ErrPipeEmpty
    | ErrStatusCode(code: int)
    | EncodeError(message: string)
    | ResolverError(message: string)
    | RequestError(message: string)
    | TransportError(message: string)
    | DecodeError(message: string)
    | ServerError(reply: ReplyError)

  const StatusCodePrefix := "wrong status code: "

  /**
   * The text `Error()` gives: the two declared sentinels have fixed texts,
   * a status-code error names its code so that it can be read back, and
   * every other error keeps its own message.
   */
  function ErrorText(e: Error): (t: string)
    ensures e == ErrMalformedResponse ==> t == "malformed response returned from server"
    ensures e == ErrPipeEmpty ==> t == "no commands in pipe"
    ensures e.ErrStatusCode? ==>
      && |t| > |StatusCodePrefix| && t[..|StatusCodePrefix|] == StatusCodePrefix
      && ParseDecimal(t[|StatusCodePrefix|..]) == Some(e.code)
    ensures e.ServerError? ==> t == e.reply.message
    ensures e.EncodeError? || e.ResolverError? || e.RequestError? || e.TransportError? || e.DecodeError? ==>
      t == e.message
  {
    match e
    case ErrMalformedResponse => "malformed response returned from server"
    case ErrPipeEmpty => "no commands in pipe"
    case ErrStatusCode(code) => StatusCodeText(code)
    case EncodeError(m) => m
    case ResolverError(m) => m
    case RequestError(m) => m
    case TransportError(m) => m
    case DecodeError(m) => m
    case ServerError(r) => r.message
  }

  /** `ErrStatusCode.Error()`: the prefix, then the code in decimal as `%d` writes it. */
  function StatusCodeText(code: int): (m: string)
    ensures |m| > |StatusCodePrefix|
    ensures m[..|StatusCodePrefix|] == StatusCodePrefix
    ensures ParseDecimal(m[|StatusCodePrefix|..]) == Some(code)
  {
    DecimalRoundTrip(code);
    var m := StatusCodePrefix + Decimal(code);
    assert m[|StatusCodePrefix|..] == Decimal(code);
    m
  }

  /** Different status codes give different texts. */
  lemma StatusCodeTextInjective(a: int, b: int)
    requires StatusCodeText(a) == StatusCodeText(b)
    ensures a == b
  {
  }

  // ---------------------------------------------------------------------------
  // Decimal notation.

  predicate IsDigit(c: char) {
    '0' <= c <= '9'
  }

  predicate AllDigits(s: string) {
    forall i :: 0 <= i < |s| ==> IsDigit(s[i])
  }

  function DigitChar(d: nat): (c: char)
    requires d < 10
    ensures IsDigit(c)
  {
    ['0', '1', '2', '3', '4', '5', '6', '7', '8', '9'][d]
  }

  function DigitValue(c: char): (d: nat)
    requires IsDigit(c)
    ensures d < 10
  {
    (c as int - '0' as int) as nat
  }

  /** The digits of n, most significant first, without leading zeros. */
  function NatDecimal(n: nat): (s: string)
    ensures |s| >= 1 && AllDigits(s)
    ensures |s| > 1 ==> s[0] != '0'
    decreases n
  {
    if n < 10 then [DigitChar(n)] else NatDecimal(n / 10) + [DigitChar(n % 10)]
  }

  /** The number a string of digits denotes. */
  function DigitsValue(s: string): nat
    requires AllDigits(s)
    decreases |s|
  {
    if s == [] then 0 else DigitsValue(s[..|s| - 1]) * 10 + DigitValue(s[|s| - 1])
  }

  lemma {:induction false} NatDecimalRoundTrip(n: nat)
    ensures DigitsValue(NatDecimal(n)) == n
    decreases n
  {
    if n >= 10 {
      var s := NatDecimal(n);
      assert s[..|s| - 1] == NatDecimal(n / 10);
      NatDecimalRoundTrip(n / 10);
      assert DigitValue(DigitChar(n % 10)) == n % 10;
    } else {
      assert DigitValue(DigitChar(n)) == n;
    }
  }

  /** An integer as `%d` writes it: a minus sign for negative numbers. */
  function Decimal(n: int): string {
    if n < 0 then "-" + NatDecimal(-n) else NatDecimal(n)
  }

  /** Reads back what `Decimal` writes; anything else is rejected. */
  function ParseDecimal(s: string): Option<int> {
    if |s| > 1 && s[0] == '-' && AllDigits(s[1..]) then Some(-(DigitsValue(s[1..]) as int))
    else if |s| > 0 && AllDigits(s) then Some(DigitsValue(s))
    else None
  }

  lemma DecimalRoundTrip(n: int)
    ensures ParseDecimal(Decimal(n)) == Some(n)
  {
    var d := NatDecimal(if n < 0 then -n else n);
    NatDecimalRoundTrip(if n < 0 then -n else n);
    if n < 0 {
      ParseNegative(d);
    } else {
      ParseNatural(d);
    }
  }

  lemma ParseNegative(d: string)
    requires |d| >= 1 && AllDigits(d)
    ensures ParseDecimal("-" + d) == Some(-(DigitsValue(d) as int))
  {
    var s := "-" + d;
    assert s[0] == '-' && s[1..] == d;
  }

  lemma ParseNatural(d: string)
    requires |d| >= 1 && AllDigits(d)
    ensures ParseDecimal(d) == Some(DigitsValue(d) as int)
  {
    assert IsDigit(d[0]);
  }
}
