/** Refresh tokens and provider secrets: which strings the service accepts for 32 random bytes. */
module Tokens {
  import opened Options
  import opened Base64

  type Secret = b: seq<Byte> | |b| == 32 witness seq(32, _ => 0)

  function Issue(secret: Secret): string {
    Encode(secret, true)
  }

  // ----- Refresh tokens -----

  /** Decodes leniently, then compares with the re-encoded secret. */
  function ReadRefreshToken(raw: string): Option<Secret> {
    match Decode(raw, true, false)
    case None => None
    case Some(secret) => if |secret| != 32 || Encode(secret, true) != raw then None else Some(secret)
  }

  /** A refresh token is accepted exactly in the one form in which its secret was issued. */
  lemma RefreshTokenIsCanonical(raw: string, secret: Secret)
    ensures ReadRefreshToken(raw) == Some(secret) <==> raw == Issue(secret)
  {
    RoundTrip(secret, true, false);
  }

  /** Every secret has one token, and every token one secret. */
  lemma OneTokenPerSecret(a: Secret, b: Secret)
    ensures Issue(a) == Issue(b) <==> a == b
  {
    if Issue(a) == Issue(b) { EncodeIsInjective(a, b, true); }
  }

  // ----- Provider secrets -----

  /** Strict decoding to 32 bytes. */
  predicate ValidProviderSecret(value: string) {
    Decode(value, true, true).Some? && |Decode(value, true, true).value| == 32
  }

  ghost predicate IsIssued(value: string) {
    exists secret: Secret :: value == Issue(secret)
  }

  /** A value is valid exactly when it is an issued form after its newlines are dropped. */
  lemma ValidUpToNewlines(value: string)
    ensures ValidProviderSecret(value) <==> IsIssued(StripNewlines(value))
  {
    if ValidProviderSecret(value) {
      var secret: Secret := Decode(value, true, true).value;
      StrictIsCanonical(value, secret, true);
      assert StripNewlines(value) == Issue(secret);
    }
    if IsIssued(StripNewlines(value)) {
      var secret: Secret :| StripNewlines(value) == Issue(secret);
      StrictIsCanonical(value, secret, true);
    }
  }

  /**
   The check accepts only the canonical format that its documentation promises if and only if the value has no CR and
   no LF.
   */
  lemma CanonicalIffNoNewline(value: string)
    requires ValidProviderSecret(value)
    ensures IsIssued(value) <==> !HasNewline(value)
  {
    ValidUpToNewlines(value);
    StripIsIdentity(value);
    if IsIssued(value) {
      var secret: Secret :| value == Issue(secret);
      EncodedHasNo(secret, true);
    }
  }

  lemma {:induction false} StripAppended(t: string)
    ensures StripNewlines(t + "\n") == StripNewlines(t)
  {
    if t == [] {
      assert t + "\n" == "\n";
      assert "\n"[1..] == [];
    } else {
      assert (t + "\n")[1..] == t[1..] + "\n";
      StripAppended(t[1..]);
    }
  }

  /** Such values exist: every issued secret followed by a line feed is accepted and was never issued. */
  lemma NewlineIsAccepted(secret: Secret)
    ensures ValidProviderSecret(Issue(secret) + "\n") && !IsIssued(Issue(secret) + "\n")
  {
    var value := Issue(secret) + "\n";
    EncodedHasNo(secret, true);
    StripIsIdentity(Issue(secret));
    StripAppended(Issue(secret));
    ValidUpToNewlines(value);
    assert IsNewline(value[|value| - 1]);
    CanonicalIffNoNewline(value);
  }
}
