/** The network layer's error cases and the messages it gives for them. */
module NetworkErrors {

  /** The six cases of the error enum. A transport error carries the
      description of the underlying system error, which is all the message
      uses of it. */
  datatype NetworkError =
    | NetworkFailure(underlyingDescription: string)
    | InvalidResponse
    | StatusCode(code: int)
    | EmptyData
    | NoNetworkConnection
    | AuthError

  const NetworkErrorPrefix := "Network Error: "
  const StatusCodePrefix := "Status Code Error: "

  /** `localizedDescription` */
  function Describe(e: NetworkError): (r: string)
    ensures e.NetworkFailure? ==> |r| >= |NetworkErrorPrefix| && r[..|NetworkErrorPrefix|] == NetworkErrorPrefix
    ensures e.NetworkFailure? ==> |r| >= |NetworkErrorPrefix| && r[|NetworkErrorPrefix|..] == e.underlyingDescription
    ensures e.StatusCode? ==> |r| > |StatusCodePrefix| && r[..|StatusCodePrefix|] == StatusCodePrefix
  {
    match e
    case NetworkFailure(d) => NetworkErrorPrefix + d
    case InvalidResponse => "Invalid Response"
    case StatusCode(n) => StatusCodePrefix + IntToString(n)
    case EmptyData => "Empty Data"
    case NoNetworkConnection => "No Network Connection"
    case AuthError => "The Provided API KEY is not valid"
  }

  // ----- Decimal rendering of an `Int` in string interpolation -----

  predicate IsDigit(c: char) { '0' <= c <= '9' }

  function DigitChar(d: int): (c: char)
    requires 0 <= d < 10
    ensures IsDigit(c) && (c as int) - ('0' as int) == d
  {
    ('0' as int + d) as char
  }

  /** Decimal digits of a natural number, most significant first, no
      leading zeros. */
  function NatToString(n: nat): (s: string)
    ensures |s| > 0 && forall i :: 0 <= i < |s| ==> IsDigit(s[i])
  {
    if n < 10 then [DigitChar(n)] else NatToString(n / 10) + [DigitChar(n % 10)]
  }

  /** `"\(n)"` for an `Int`: a minus sign before the digits of a negative value. */
  function IntToString(n: int): (s: string)
    ensures |s| > 0
    ensures n < 0 <==> s[0] == '-'
  {
    if n < 0 then "-" + NatToString(-n) else NatToString(n)
  }

  /** Reads back the value of a string of decimal digits. */
  function ParseNat(s: string): int
    requires forall i :: 0 <= i < |s| ==> IsDigit(s[i])
  {
    if s == [] then 0
    else ParseNat(s[..|s| - 1]) * 10 + ((s[|s| - 1] as int) - ('0' as int))
  }

  /** Reads back the value of `IntToString`'s output. */
  function ParseInt(s: string): int
    requires |s| > 0
    requires forall i :: (if s[0] == '-' then 1 else 0) <= i < |s| ==> IsDigit(s[i])
  {
    if s[0] == '-' then -ParseNat(s[1..]) else ParseNat(s)
  }

  lemma {:induction false} NatRoundTrip(n: nat)
    ensures ParseNat(NatToString(n)) == n
  {
    if n >= 10 {
      var s := NatToString(n);
      assert s[..|s| - 1] == NatToString(n / 10);
      NatRoundTrip(n / 10);
    }
  }

  /** Status codes are rendered so that the number can be read back. */
  lemma IntRoundTrip(n: int)
    ensures ParseInt(IntToString(n)) == n
  {
    if n < 0 {
      assert IntToString(n)[1..] == NatToString(-n);
      NatRoundTrip(-n);
    } else {
      NatRoundTrip(n);
    }
  }

  /** The message of `statusCode(n)` ends with `n` in decimal. */
  lemma StatusCodeMessageCarriesCode(n: int)
    ensures var m := Describe(StatusCode(n));
            |m| > |StatusCodePrefix| && ParseInt(m[|StatusCodePrefix|..]) == n
  {
    assert Describe(StatusCode(n))[|StatusCodePrefix|..] == IntToString(n);
    IntRoundTrip(n);
  }

  /** Different errors never share a message: the fixed messages are pairwise
      distinct, none of them starts like a parameterised one, and the
      parameterised ones keep their parameter recoverable. */
  lemma DescribeInjective(a: NetworkError, b: NetworkError)
    requires Describe(a) == Describe(b)
    ensures a == b
  {
    DescribeLeading(a);
    DescribeLeading(b);
    assert Leading(a) == Leading(b);
    if a.StatusCode? && b.StatusCode? {
      StatusCodeMessageCarriesCode(a.code);
      StatusCodeMessageCarriesCode(b.code);
    }
  }

  /** Every message starts with the two characters of its case. */
  lemma DescribeLeading(e: NetworkError)
    ensures |Describe(e)| >= 2 && Describe(e)[..2] == Leading(e)
  {
    match e
    case NetworkFailure(_) =>
      assert Describe(e)[..2] == NetworkErrorPrefix[..2];
    case StatusCode(_) =>
      assert Describe(e)[..2] == StatusCodePrefix[..2];
    case _ =>
  }

  /** The first two characters of each message, which already tell the
      cases apart. */
  function Leading(e: NetworkError): string {
    match e
    case NetworkFailure(_) => "Ne"
    case InvalidResponse => "In"
    case StatusCode(_) => "St"
    case EmptyData => "Em"
    case NoNetworkConnection => "No"
    case AuthError => "Th"
  }
}
