/**
 * Time-based one-time passwords and recovery codes: internal/mfa/totp.go and recovery.go. Clock readings
 * are whole seconds; the code of a step (section 5.3 of RFC 4226) is a parameter.
 */
module Totp {
  import opened Common
  import opened Scopes
  import opened TypedCodes

  const DIGITS := 6
  const PERIOD := 30
  const SKEW := 1

  /** The code of a secret at a time step. */
  type Hotp = (string, int) -> string

  /** Go's division: the quotient is truncated toward zero. */
  function Quotient(a: int, b: nat): int
    requires b > 0
  {
    if a >= 0 then a / b else -((-a) / b)
  }

  /** Step: the time step that contains t. */
  function TimeStep(t: Time): int {
    Quotient(t, PERIOD)
  }

  /** From the epoch on, time steps are consecutive periods of 30 seconds. */
  lemma TimeStepContains(t: Time)
    requires t >= 0
    ensures PERIOD * TimeStep(t) <= t < PERIOD * (TimeStep(t) + 1)
  {
  }

  predicate Matches(hotp: Hotp, secret: string, entered: string, step: int) {
    hotp(secret, step) == entered
  }

  /** The step Verify returns: the earliest of the accepted steps whose code was entered. */
  function MatchingStep(hotp: Hotp, secret: string, code: string, now: Time): (step: Option<int>)
    ensures step.Some? ==> TimeStep(now) - SKEW <= step.value <= TimeStep(now) + SKEW
  {
    var entered := TrimSpace(code);
    var current := TimeStep(now);
    if |entered| != DIGITS then None
    else if Matches(hotp, secret, entered, current - 1) then Some(current - 1)
    else if Matches(hotp, secret, entered, current) then Some(current)
    else if Matches(hotp, secret, entered, current + 1) then Some(current + 1)
    else None
  }

  /** Verify: the loop over the accepted steps, which never stops early. */
  method Verify(hotp: Hotp, secret: string, code: string, now: Time) returns (matched: int, ok: bool)
    ensures ok <==> (|TrimSpace(code)| == DIGITS && exists step ::
      TimeStep(now) - SKEW <= step <= TimeStep(now) + SKEW && Matches(hotp, secret, TrimSpace(code), step))
    ensures ok ==> Matches(hotp, secret, TrimSpace(code), matched)
    ensures ok ==> forall step :: TimeStep(now) - SKEW <= step < matched ==> !Matches(hotp, secret, TrimSpace(code), step)
    ensures MatchingStep(hotp, secret, code, now) == if ok then Some(matched) else None
  {
    var entered := TrimSpace(code);
    if |entered| != DIGITS {
      return 0, false;
    }
    var current := TimeStep(now);
    matched, ok := 0, false;
    var step := current - SKEW;
    while step <= current + SKEW
      invariant current - SKEW <= step <= current + SKEW + 1
      invariant ok ==> current - SKEW <= matched < step && Matches(hotp, secret, entered, matched)
      invariant forall k :: current - SKEW <= k < (if ok then matched else step) ==> !Matches(hotp, secret, entered, k)
    {
      if Matches(hotp, secret, entered, step) && !ok {
        matched, ok := step, true;
      }
      step := step + 1;
    }
    if ok {
      assert matched == current - 1 || matched == current || matched == current + 1;
    }
  }

  predicate TotpShaped(input: string) {
    |input| == DIGITS && forall i :: 0 <= i < |input| ==> '0' <= input[i] <= '9'
  }

  method LooksLikeTotp(input: string) returns (yes: bool)
    ensures yes <==> TotpShaped(TrimSpace(input))
  {
    var text := TrimSpace(input);
    if |text| != DIGITS {
      return false;
    }
    for i := 0 to |text|
      invariant forall j :: 0 <= j < i ==> '0' <= text[j] <= '9'
    {
      if text[i] < '0' || text[i] > '9' {
        return false;
      }
    }
    return true;
  }

  // ----- Recovery codes -----

  const RECOVERY_CODE_CHARS := 10

  /** Digits and capital letters without the look-alikes 0, 1, I, L and O. */
  predicate InRecoveryAlphabet(c: char) {
    '2' <= c <= '9' || ('A' <= c <= 'Z' && c != 'I' && c != 'L' && c != 'O')
  }

  /** Ten characters of the alphabet. */
  predicate RawRecoveryCode(raw: string) {
    |raw| == RECOVERY_CODE_CHARS && forall i :: 0 <= i < |raw| ==> InRecoveryAlphabet(raw[i])
  }

  /** A code as NewRecoveryCodes shows it: two groups of five. */
  function ShowRecoveryCode(raw: string): string
    requires |raw| == RECOVERY_CODE_CHARS
  {
    Grouped(raw, 5)
  }

  function NormalizeRecoveryCode(code: string): string {
    Squeeze(TrimSpace(code))
  }

  /** HashRecoveryCode, with a keyed hash that is injective. */
  function HashRecoveryCode(code: string): Hash {
    Sha256(NormalizeRecoveryCode(code))
  }

  lemma ShownHash(raw: string)
    requires |raw| == RECOVERY_CODE_CHARS && Plain(raw)
    ensures HashRecoveryCode(ShowRecoveryCode(raw)) == Sha256(raw)
  {
    SqueezeGrouped(raw, 5);
  }

  /** However a recovery code is typed, it has the hash of the code shown and is not taken for a TOTP code. */
  lemma TypedRecoveryCode(code: string, entered: string, raw: string)
    requires RawRecoveryCode(raw) && entered == TrimSpace(code) && Typed(entered, raw)
    ensures HashRecoveryCode(code) == HashRecoveryCode(ShowRecoveryCode(raw))
    ensures !TotpShaped(entered)
  {
    SqueezeTyped(entered, raw);
    ShownHash(raw);
  }

  method NormalizeTypedCode(code: string) returns (r: string)
    ensures r == NormalizeRecoveryCode(code)
  {
    var s := TrimSpace(code);
    r := "";
    for i := 0 to |s|
      invariant r + Squeeze(s[i..]) == Squeeze(s)
    {
      if s[i] != '-' && s[i] != ' ' {
        r := r + [Upper(s[i])];
      }
    }
  }
}
