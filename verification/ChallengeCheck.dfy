/** Checking a submitted code against a stored challenge (domain/challenge.go). */
module ChallengeCheck {
  import opened Clock
  import opened Schema

  datatype CodeCheck = CodeRejected | CodeWrongGuess | CodeAccepted

  predicate ValidVerificationCode(code: string) {
    |code| == 6 && forall i :: 0 <= i < 6 ==> '0' <= code[i] <= '9'
  }

  predicate Matches(c: Challenge, s: Subject, email: Email, p: Purpose, code: string) {
    ValidVerificationCode(code) && c.verifier == Verifier(s, email, p, code)
  }

  predicate OpenFor(c: Challenge, email: Email, appNow: Time) {
    c.email == email && c.wrongGuesses < 5 && appNow < c.expiresAt
  }

  function Check(c: Challenge, s: Subject, email: Email, p: Purpose, code: string, appNow: Time): CodeCheck {
    if !OpenFor(c, email, appNow) then CodeRejected
    else if Matches(c, s, email, p, code) then CodeAccepted
    else CodeWrongGuess
  }

  /** Compares first, so that a missing or closed challenge costs the same time. */
  function CheckInFixedTime(c: Challenge, s: Subject, email: Email, p: Purpose, code: string, appNow: Time): CodeCheck {
    var matched := Matches(c, s, email, p, code);
    if !OpenFor(c, email, appNow) then CodeRejected
    else if matched then CodeAccepted
    else CodeWrongGuess
  }
}
