/**
 Base64 without padding, as section 4 (standard alphabet) and section 5 (URL alphabet)
 of RFC 4648 define it and as Go's decoder reads it: it skips CR and LF wherever they
 stand, and looks at the unused bits of the last character only in strict mode.
 */
module Base64 {
  import opened Options

  type Byte = x: int | 0 <= x < 256 witness 0
  type Sextet = x: int | 0 <= x < 64 witness 0

  // ----- Bytes and sextets -----

  // The four sextets of three bytes.
  function High(a: Byte): Sextet { a / 4 }

  function Upper(a: Byte, b: Byte): Sextet { a % 4 * 16 + b / 16 }

  function Lower(b: Byte, c: Byte): Sextet { b % 16 * 4 + c / 64 }

  function Low(c: Byte): Sextet { c % 64 }

  function Sextets(b: seq<Byte>): seq<Sextet> {
    if |b| == 0 then []
    else if |b| == 1 then [High(b[0]), Upper(b[0], 0)]
    else if |b| == 2 then [High(b[0]), Upper(b[0], b[1]), Lower(b[1], 0)]
    else [High(b[0]), Upper(b[0], b[1]), Lower(b[1], b[2]), Low(b[2])] + Sextets(b[3..])
  }

  // The three bytes of four sextets.
  function First(a: Sextet, b: Sextet): Byte { a * 4 + b / 16 }

  function Second(b: Sextet, c: Sextet): Byte { b % 16 * 16 + c / 4 }

  function Third(c: Sextet, d: Sextet): Byte { c % 4 * 64 + d }

  function Bytes(s: seq<Sextet>, strict: bool): Option<seq<Byte>> {
    if |s| == 0 then Some([])
    else if |s| == 1 then None
    else if |s| == 2 then
      if strict && s[1] % 16 != 0 then None else Some([First(s[0], s[1])])
    else if |s| == 3 then
      if strict && s[2] % 4 != 0 then None else Some([First(s[0], s[1]), Second(s[1], s[2])])
    else
      match Bytes(s[4..], strict)
      case None => None
      case Some(rest) => Some([First(s[0], s[1]), Second(s[1], s[2]), Third(s[2], s[3])] + rest)
  }

  lemma ThreeBytesSurvive(a: Byte, b: Byte, c: Byte)
    ensures First(High(a), Upper(a, b)) == a && Second(Upper(a, b), Lower(b, c)) == b && Third(Lower(b, c), Low(c)) == c
    ensures Upper(a, 0) % 16 == 0 && Lower(b, 0) % 4 == 0
  {
  }

  lemma FourSextetsSurvive(p: Sextet, q: Sextet, r: Sextet, t: Sextet)
    ensures High(First(p, q)) == p && Upper(First(p, q), Second(q, r)) == q
    ensures Lower(Second(q, r), Third(r, t)) == r && Low(Third(r, t)) == t
    ensures q % 16 == 0 ==> Upper(First(p, q), 0) == q
    ensures r % 4 == 0 ==> Lower(Second(q, r), 0) == r
  {
  }

  lemma {:induction false} BytesOfSextets(b: seq<Byte>, strict: bool)
    ensures Bytes(Sextets(b), strict) == Some(b)
  {
    hide First, Second, Third, High, Upper, Lower, Low;
    if |b| == 0 {
    } else if |b| == 1 {
      ThreeBytesSurvive(b[0], 0, 0);
      assert b == [b[0]];
    } else if |b| == 2 {
      ThreeBytesSurvive(b[0], b[1], 0);
      assert b == [b[0], b[1]];
    } else {
      ThreeBytesSurvive(b[0], b[1], b[2]);
      assert Sextets(b)[4..] == Sextets(b[3..]);
      BytesOfSextets(b[3..], strict);
      assert b == [b[0], b[1], b[2]] + b[3..];
    }
  }

  lemma {:induction false} SextetsOfBytes(s: seq<Sextet>)
    requires Bytes(s, true).Some?
    ensures Sextets(Bytes(s, true).value) == s
  {
    hide First, Second, Third, High, Upper, Lower, Low;
    var b := Bytes(s, true).value;
    if |s| == 0 {
    } else if |s| < 4 {
      FourSextetsSurvive(s[0], s[1], if |s| == 3 then s[2] else 0, 0);
    } else {
      FourSextetsSurvive(s[0], s[1], s[2], s[3]);
      SextetsOfBytes(s[4..]);
      assert b[3..] == Bytes(s[4..], true).value;
      assert s == [s[0], s[1], s[2], s[3]] + s[4..];
    }
  }

  // ----- Alphabets -----

  function Character(v: Sextet, url: bool): (c: char)
    ensures c != '\r' && c != '\n' && c != '$'
  {
    if v < 26 then 'A' + v as char
    else if v < 52 then 'a' + (v - 26) as char
    else if v < 62 then '0' + (v - 52) as char
    else if v == 62 then (if url then '-' else '+')
    else if url then '_' else '/'
  }

  function SextetOf(c: char, url: bool): Option<Sextet> {
    if 'A' <= c <= 'Z' then Some((c - 'A') as int)
    else if 'a' <= c <= 'z' then Some((c - 'a') as int + 26)
    else if '0' <= c <= '9' then Some((c - '0') as int + 52)
    else if c == (if url then '-' else '+') then Some(62)
    else if c == (if url then '_' else '/') then Some(63)
    else None
  }

  lemma AlphabetIsBijective(v: Sextet, c: char, url: bool)
    ensures SextetOf(c, url) == Some(v) <==> Character(v, url) == c
  {
  }

  function Text(s: seq<Sextet>, url: bool): string {
    if s == [] then [] else [Character(s[0], url)] + Text(s[1..], url)
  }

  function Digits(t: string, url: bool): Option<seq<Sextet>> {
    if t == [] then Some([])
    else
      match SextetOf(t[0], url)
      case None => None
      case Some(v) =>
        match Digits(t[1..], url)
        case None => None
        case Some(rest) => Some([v] + rest)
  }

  lemma {:induction false} DigitsOfText(s: seq<Sextet>, url: bool)
    ensures Digits(Text(s, url), url) == Some(s)
  {
    if s != [] {
      AlphabetIsBijective(s[0], Character(s[0], url), url);
      assert Text(s, url)[1..] == Text(s[1..], url);
      DigitsOfText(s[1..], url);
      assert [s[0]] + s[1..] == s;
    }
  }

  lemma {:induction false} TextOfDigits(t: string, url: bool)
    requires Digits(t, url).Some?
    ensures Text(Digits(t, url).value, url) == t
  {
    if t != [] {
      var s := Digits(t, url).value;
      AlphabetIsBijective(s[0], t[0], url);
      assert s[1..] == Digits(t[1..], url).value;
      TextOfDigits(t[1..], url);
    }
  }

  // ----- Encoding -----

  function Encode(b: seq<Byte>, url: bool): string {
    Text(Sextets(b), url)
  }

  predicate IsNewline(c: char) { c == '\r' || c == '\n' }

  predicate HasNewline(t: string) {
    exists i :: 0 <= i < |t| && IsNewline(t[i])
  }

  function StripNewlines(t: string): string {
    if t == [] then [] else (if IsNewline(t[0]) then [] else [t[0]]) + StripNewlines(t[1..])
  }

  function Decode(t: string, url: bool, strict: bool): Option<seq<Byte>> {
    match Digits(StripNewlines(t), url)
    case None => None
    case Some(s) => Bytes(s, strict)
  }

  lemma {:induction false} TextHasNo(s: seq<Sextet>, url: bool)
    ensures |Text(s, url)| == |s|
    ensures forall i :: 0 <= i < |s| ==> !IsNewline(Text(s, url)[i]) && Text(s, url)[i] != '$'
  {
    if s != [] { TextHasNo(s[1..], url); }
  }

  lemma {:induction false} StripIsIdentity(t: string)
    ensures StripNewlines(t) == t <==> !HasNewline(t)
    ensures !HasNewline(StripNewlines(t)) && |StripNewlines(t)| <= |t|
  {
    if t != [] {
      StripIsIdentity(t[1..]);
      if IsNewline(t[0]) {
        assert HasNewline(t);
      } else {
        assert StripNewlines(t) == [t[0]] + StripNewlines(t[1..]);
        assert HasNewline(t) <==> HasNewline(t[1..]) by {
          if HasNewline(t) {
            var i :| 0 <= i < |t| && IsNewline(t[i]);
            assert IsNewline(t[1..][i - 1]);
          }
          if HasNewline(t[1..]) {
            var i :| 0 <= i < |t[1..]| && IsNewline(t[1..][i]);
            assert IsNewline(t[i + 1]);
          }
        }
        if StripNewlines(t) == t { assert StripNewlines(t)[1..] == StripNewlines(t[1..]); }
        forall i | 0 <= i < |StripNewlines(t)| ensures !IsNewline(StripNewlines(t)[i]) {
          if i > 0 { assert StripNewlines(t)[i] == StripNewlines(t[1..])[i - 1]; }
        }
      }
    }
  }

  lemma EncodedHasNo(b: seq<Byte>, url: bool)
    ensures !HasNewline(Encode(b, url)) && forall i :: 0 <= i < |Encode(b, url)| ==> Encode(b, url)[i] != '$'
  {
    TextHasNo(Sextets(b), url);
  }

  /** Decoding what was encoded gives the bytes back, in either mode and for either alphabet. */
  lemma RoundTrip(b: seq<Byte>, url: bool, strict: bool)
    ensures Decode(Encode(b, url), url, strict) == Some(b)
  {
    EncodedHasNo(b, url);
    StripIsIdentity(Encode(b, url));
    DigitsOfText(Sextets(b), url);
    BytesOfSextets(b, strict);
  }

  lemma EncodeIsInjective(a: seq<Byte>, b: seq<Byte>, url: bool)
    requires Encode(a, url) == Encode(b, url)
    ensures a == b
  {
    RoundTrip(a, url, true);
    RoundTrip(b, url, true);
  }

  /** Strict decoding accepts exactly the canonical text of its result, with newlines anywhere in it. */
  lemma StrictIsCanonical(t: string, b: seq<Byte>, url: bool)
    ensures Decode(t, url, true) == Some(b) <==> StripNewlines(t) == Encode(b, url)
  {
    if Decode(t, url, true) == Some(b) {
      var s := Digits(StripNewlines(t), url).value;
      TextOfDigits(StripNewlines(t), url);
      SextetsOfBytes(s);
    }
    if StripNewlines(t) == Encode(b, url) {
      DigitsOfText(Sextets(b), url);
      BytesOfSextets(b, true);
    }
  }
}
