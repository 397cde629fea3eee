/**
 Decimal numbers, six-digit codes and the length-prefixed messages that are keyed with
 HMAC. A Go string is its sequence of bytes, one char each.
 */
module Framing {
  import opened Options
  import opened ChallengeCheck

  // ----- Decimal -----

  predicate IsDigit(c: char) { '0' <= c <= '9' }

  function Digit(d: nat): (c: char)
    requires d < 10
    ensures IsDigit(c)
  {
    '0' + d as char
  }

  /** %d of a non-negative number. */
  function Decimal(n: nat): string {
    if n < 10 then [Digit(n)] else Decimal(n / 10) + [Digit(n % 10)]
  }

  predicate AllDigits(s: string) {
    forall i :: 0 <= i < |s| ==> IsDigit(s[i])
  }

  function Value(s: string): nat
    requires AllDigits(s)
  {
    if s == [] then 0 else 10 * Value(s[..|s| - 1]) + (s[|s| - 1] - '0') as nat
  }

  lemma {:induction false} DecimalIsValue(n: nat)
    ensures |Decimal(n)| > 0 && AllDigits(Decimal(n)) && Value(Decimal(n)) == n
  {
    if n < 10 {
      assert Decimal(n)[..0] == [];
    } else {
      DecimalIsValue(n / 10);
      assert Decimal(n)[..|Decimal(n)| - 1] == Decimal(n / 10);
    }
  }

  // ----- Codes -----

  function PowerOfTen(width: nat): nat {
    if width == 0 then 1 else 10 * PowerOfTen(width - 1)
  }

  /** %0*d of a number that fits the width. */
  function Padded(n: nat, width: nat): string {
    if width == 0 then [] else Padded(n / 10, width - 1) + [Digit(n % 10)]
  }

  /** The code that newCode draws for a number below a million. */
  function Code(n: nat): string
    requires n < 1_000_000
  {
    Padded(n, 6)
  }

  lemma {:induction false} PaddedIsValue(n: nat, width: nat)
    requires n < PowerOfTen(width)
    ensures |Padded(n, width)| == width && AllDigits(Padded(n, width)) && Value(Padded(n, width)) == n
  {
    if width > 0 {
      PaddedIsValue(n / 10, width - 1);
      assert Padded(n, width)[..width - 1] == Padded(n / 10, width - 1);
    }
  }

  lemma {:induction false} ValueIsPadded(s: string)
    requires AllDigits(s)
    ensures Value(s) < PowerOfTen(|s|) && Padded(Value(s), |s|) == s
  {
    if s != [] {
      var init := s[..|s| - 1];
      ValueIsPadded(init);
      assert Value(s) / 10 == Value(init) && Value(s) % 10 == (s[|s| - 1] - '0') as nat;
    }
  }

  /** The codes that are drawn are exactly the well-formed ones, one for each number below a million. */
  lemma CodesAreWellFormed(code: string)
    ensures ValidVerificationCode(code) <==> exists n: nat :: n < 1_000_000 && Code(n) == code
    ensures forall m: nat, n: nat :: m < 1_000_000 && n < 1_000_000 && Code(m) == Code(n) ==> m == n
  {
    assert PowerOfTen(6) == 1_000_000 by { assert PowerOfTen(3) == 1_000; }
    forall n: nat | n < 1_000_000 ensures ValidVerificationCode(Code(n)) && Value(Code(n)) == n {
      PaddedIsValue(n, 6);
    }
    if ValidVerificationCode(code) {
      ValueIsPadded(code);
      assert Code(Value(code)) == code;
    }
  }

  // ----- Length-prefixed fields -----

  /** The concatenation of "%d:%s" over the fields. */
  function Frame(fields: seq<string>): string {
    if fields == [] then [] else Decimal(|fields[0]|) + ":" + fields[0] + Frame(fields[1..])
  }

  /** Writes the fields into the MAC one after the other. */
  method WriteFields(fields: seq<string>) returns (buffer: string)
    ensures buffer == Frame(fields)
  {
    buffer := "";
    for i := 0 to |fields|
      invariant buffer + Frame(fields[i..]) == Frame(fields)
    {
      assert fields[i..][1..] == fields[i + 1..];
      assert (buffer + (Decimal(|fields[i]|) + ":" + fields[i])) + Frame(fields[i + 1..]) ==
        buffer + (Decimal(|fields[i]|) + ":" + fields[i] + Frame(fields[i + 1..]));
      buffer := buffer + (Decimal(|fields[i]|) + ":" + fields[i]);
    }
  }

  function DigitSpan(s: string): (n: nat)
    ensures n <= |s| && AllDigits(s[..n]) && (n < |s| ==> !IsDigit(s[n]))
  {
    if s == [] || !IsDigit(s[0]) then 0 else
      var rest := DigitSpan(s[1..]);
      assert s[..rest + 1] == [s[0]] + s[1..][..rest];
      rest + 1
  }

  /** Reads the fields back: digits up to the colon, then that many bytes. */
  function Unframe(s: string): Option<seq<string>>
    decreases |s|
  {
    if s == [] then Some([])
    else
      var n := DigitSpan(s);
      if n == 0 || n == |s| || s[n] != ':' then None
      else
        var length := Value(s[..n]);
        var rest := s[n + 1..];
        if length > |rest| then None
        else
          match Unframe(rest[length..])
          case None => None
          case Some(fields) => Some([rest[..length]] + fields)
  }

  lemma {:induction false} SpanOfPrefix(digits: string, tail: string)
    requires AllDigits(digits) && tail != [] && !IsDigit(tail[0])
    ensures DigitSpan(digits + tail) == |digits|
  {
    if digits != [] {
      assert (digits + tail)[1..] == digits[1..] + tail;
      SpanOfPrefix(digits[1..], tail);
    } else {
      assert digits + tail == tail;
    }
  }

  lemma FirstFieldReads(s: string, digits: string, f: string, rest: string)
    requires s == digits + ([':'] + (f + rest)) && digits != [] && AllDigits(digits) && Value(digits) == |f|
    requires Unframe(rest).Some?
    ensures Unframe(s) == Some([f] + Unframe(rest).value)
  {
    hide Value, AllDigits, IsDigit;
    var n := |digits|;
    var tail := [':'] + (f + rest);
    assert DigitSpan(s) == n by { SpanOf(digits, tail); }
    hide DigitSpan;
    assert s[..n] == digits;
    assert s[n] == ':';
    assert s[n + 1..] == f + rest;
    assert (f + rest)[..|f|] == f && (f + rest)[|f|..] == rest;
  }

  lemma SpanOf(digits: string, tail: string)
    requires AllDigits(digits) && tail != [] && tail[0] == ':'
    ensures DigitSpan(digits + tail) == |digits|
  {
    SpanOfPrefix(digits, tail);
  }

  /** The fields decode uniquely, whatever bytes they hold and however many they are. */
  lemma {:induction false} FrameRoundTrip(fields: seq<string>)
    ensures Unframe(Frame(fields)) == Some(fields)
  {
    if fields != [] {
      var f, rest := fields[0], Frame(fields[1..]);
      var digits, s := Decimal(|f|), Frame(fields);
      DecimalIsValue(|f|);
      assert s == digits + ([':'] + (f + rest));
      FrameRoundTrip(fields[1..]);
      assert [f] + fields[1..] == fields;
      FirstFieldReads(s, digits, f, rest);
    }
  }

  /** Equal messages have equal fields: codes, provider secrets and lists of any other length never coincide. */
  lemma FrameIsInjective(a: seq<string>, b: seq<string>)
    requires Frame(a) == Frame(b)
    ensures a == b
  {
    FrameRoundTrip(a);
    FrameRoundTrip(b);
  }

  // ----- The three messages under the verifier key -----

  function CodeMessage(subject: string, email: string, purpose: string, code: string): string {
    Frame([subject, email, purpose, code])
  }

  function SecretMessage(purpose: string, value: string): string {
    Frame([purpose, value])
  }

  function LimitMessage(email: string): string {
    "password-reset-email:" + email
  }

  lemma FrameStartsWithDigit(fields: seq<string>)
    requires fields != []
    ensures Frame(fields) != [] && IsDigit(Frame(fields)[0])
  {
    DecimalIsValue(|fields[0]|);
    assert Frame(fields)[0] == Decimal(|fields[0]|)[0];
  }

  /** A keyed value of one use is never one of another, and within each use it determines its inputs. */
  lemma MessagesAreSeparate(
    subject: string, email: string, purpose: string, code: string, use: string, value: string, address: string)
    ensures CodeMessage(subject, email, purpose, code) != SecretMessage(use, value)
    ensures CodeMessage(subject, email, purpose, code) != LimitMessage(address)
    ensures SecretMessage(use, value) != LimitMessage(address)
  {
    if CodeMessage(subject, email, purpose, code) == SecretMessage(use, value) {
      FrameIsInjective([subject, email, purpose, code], [use, value]);
      assert false;
    }
    FrameStartsWithDigit([subject, email, purpose, code]);
    FrameStartsWithDigit([use, value]);
    assert LimitMessage(address)[0] == 'p';
  }

  lemma CodeMessageIsInjective(
    s: string, e: string, p: string, c: string, s': string, e': string, p': string, c': string)
    requires CodeMessage(s, e, p, c) == CodeMessage(s', e', p', c')
    ensures s == s' && e == e' && p == p' && c == c'
  {
    var a, b := [s, e, p, c], [s', e', p', c'];
    FrameIsInjective(a, b);
    assert a[0] == b[0] && a[1] == b[1] && a[2] == b[2] && a[3] == b[3];
  }

  lemma OtherMessagesAreInjective(
    use: string, value: string, use': string, value': string, email: string, email': string)
    ensures SecretMessage(use, value) == SecretMessage(use', value') ==> use == use' && value == value'
    ensures LimitMessage(email) == LimitMessage(email') ==> email == email'
  {
    if SecretMessage(use, value) == SecretMessage(use', value') {
      var a, b := [use, value], [use', value'];
      FrameIsInjective(a, b);
      assert a[0] == b[0] && a[1] == b[1];
    }
    assert LimitMessage(email)[21..] == email && LimitMessage(email')[21..] == email';
  }
}
