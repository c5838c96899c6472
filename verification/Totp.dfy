/** TOTP verification (internal/totp/totp.go). The HMAC is an arbitrary function `hotp`. */
module Totp {
  import opened Basics
  import RuntimeState

  const PERIOD := 30
  const DIGITS := 6

  /** Go's truncating division by a positive divisor. */
  function TruncDiv(a: int, b: int): int
    requires b > 0
  {
    if a >= 0 then a / b else -((-a) / b)
  }

  /** now.Unix() / Period. Unix() floors, the division by Period truncates. */
  function TimeStep(now: int): int { TruncDiv(now / RuntimeState.SECOND, PERIOD) }

  /** Verify's search over the current step, the one before and the one after, in that order. */
  function Verify(hotp: (Bytes, int) -> string, secret: Bytes, code: string, now: int): (r: Option<int>)
    ensures r.Some? ==> TimeStep(now) - 1 <= r.value <= TimeStep(now) + 1 && hotp(secret, r.value) == TrimSpace(code)
    ensures r.None? ==>
              |TrimSpace(code)| != DIGITS ||
              forall step :: TimeStep(now) - 1 <= step <= TimeStep(now) + 1 ==> hotp(secret, step) != TrimSpace(code)
    ensures r.Some? ==> |TrimSpace(code)| == DIGITS
  {
    var c, t := TrimSpace(code), TimeStep(now);
    if |c| != DIGITS then None
    else if hotp(secret, t) == c then Some(t)
    else if hotp(secret, t - 1) == c then Some(t - 1)
    else if hotp(secret, t + 1) == c then Some(t + 1)
    else None
  }
}
