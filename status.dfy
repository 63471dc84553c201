/**
 * The error values the bridge returns to its API callers: a gRPC status
 * (a code and a message) or one of the two sentinel errors that the
 * storage-engine client library defines for a failed call and for an
 * unexpected call result.
 */
module Status {

  datatype Code = Unknown | InvalidArgument | NotFound

  datatype Error =
    | Status(code: Code, message: string)
      /** the engine call returned an error (the library's ErrFailedSpdkCall) */
    | FailedSpdkCall
      /** the engine call returned a result the caller did not expect (ErrUnexpectedSpdkCallResult) */
    | UnexpectedSpdkCallResult
      /** the engine's result could not be decoded into the type the method expects */
    | DecodeFailed(rpcMethod: string)

  /** The error the request validator reports for an empty required field. */
  function MissingField(path: string): Error {
    Status(Unknown, "missing required field: " + path)
  }

  /** The error every keyed store reports for a key it does not hold. */
  function KeyNotFound(key: string): Error {
    Status(NotFound, "unable to find key " + key)
  }

  predicate IsDigitChar(c: char) {
    '0' <= c <= '9'
  }

  /** Decimal rendering of a number, as Go's %d prints it. */
  function DecimalString(n: nat): (s: string)
    ensures |s| > 0
    ensures forall i :: 0 <= i < |s| ==> IsDigitChar(s[i])
    ensures n < 10 <==> |s| == 1
  {
    if n < 10 then [DigitChar(n)] else DecimalString(n / 10) + [DigitChar(n % 10)]
  }

  function DigitChar(d: nat): (c: char)
    requires d < 10
    ensures IsDigitChar(c)
  {
    ['0', '1', '2', '3', '4', '5', '6', '7', '8', '9'][d]
  }

  /** The number a string of decimal digits denotes. */
  function DecimalValue(s: string): nat
    requires forall i :: 0 <= i < |s| ==> IsDigitChar(s[i])
  {
    if s == [] then 0
    else
      assert IsDigitChar(s[|s| - 1]);
      10 * DecimalValue(s[..|s| - 1]) + (s[|s| - 1] as int - '0' as int)
  }

  /** Reading back the decimal rendering of a number gives that number. */
  lemma {:induction false} DecimalRoundTrip(n: nat)
    ensures DecimalValue(DecimalString(n)) == n
  {
    var s := DecimalString(n);
    if n >= 10 {
      DecimalRoundTrip(n / 10);
      assert s[..|s| - 1] == DecimalString(n / 10);
    }
  }
}
