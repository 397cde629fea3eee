/** The stored form of a password hash: what HashPassword prints and VerifyPassword parses. */
module PasswordHash {
  import opened Options
  import opened Base64
  import Framing

  const ARGON2_VERSION: nat := 19
  const PARAMETERS := "m=19456,t=2,p=1"

  // ----- strings.Split -----

  predicate Without(s: string, sep: char) {
    forall i :: 0 <= i < |s| ==> s[i] != sep
  }

  function Split(s: string, sep: char): (parts: seq<string>)
    ensures |parts| > 0
  {
    if s == [] then [[]]
    else
      var rest := Split(s[1..], sep);
      if s[0] == sep then [[]] + rest else [[s[0]] + rest[0]] + rest[1..]
  }

  function Join(parts: seq<string>, sep: char): string
    requires parts != []
  {
    if |parts| == 1 then parts[0] else parts[0] + [sep] + Join(parts[1..], sep)
  }

  lemma {:induction false} SplitPrefix(part: string, tail: string, sep: char)
    requires Without(part, sep)
    ensures Split(part + tail, sep) == [part + Split(tail, sep)[0]] + Split(tail, sep)[1..]
  {
    if part == [] {
      assert part + tail == tail;
      assert [] + Split(tail, sep)[0] == Split(tail, sep)[0];
    } else {
      assert (part + tail)[1..] == part[1..] + tail;
      SplitPrefix(part[1..], tail, sep);
      var rest := Split(part[1..] + tail, sep);
      assert [part[0]] + rest[0] == part + Split(tail, sep)[0];
      assert rest[1..] == Split(tail, sep)[1..];
    }
  }

  lemma {:induction false} SplitJoins(parts: seq<string>, sep: char)
    requires parts != [] && forall i :: 0 <= i < |parts| ==> Without(parts[i], sep)
    ensures Split(Join(parts, sep), sep) == parts
  {
    if |parts| == 1 {
      SplitPrefix(parts[0], [], sep);
      assert parts[0] + [] == parts[0];
    } else {
      var tail := [sep] + Join(parts[1..], sep);
      assert Join(parts, sep) == parts[0] + tail;
      SplitPrefix(parts[0], tail, sep);
      assert tail[1..] == Join(parts[1..], sep);
      SplitJoins(parts[1..], sep);
      assert parts[0] + [] == parts[0];
      assert [parts[0]] + parts[1..] == parts;
    }
  }

  // ----- Printing and parsing -----

  function Version(): string {
    "v=" + Framing.Decimal(ARGON2_VERSION)
  }

  function Print(salt: seq<Byte>, digest: seq<Byte>): string {
    "$argon2id$" + Version() + "$" + PARAMETERS + "$" + Encode(salt, false) + "$" + Encode(digest, false)
  }

  function Parse(stored: string): Option<(seq<Byte>, seq<Byte>)> {
    var parts := Split(stored, '$');
    if |parts| != 6 || parts[0] != "" || parts[1] != "argon2id" || parts[2] != Version()
      || parts[3] != PARAMETERS then None
    else
      match (Decode(parts[4], false, false), Decode(parts[5], false, false))
      case (Some(salt), Some(digest)) => if |salt| != 16 || |digest| != 32 then None else Some((salt, digest))
      case _ => None
  }

  function Parts(salt: seq<Byte>, digest: seq<Byte>): seq<string> {
    ["", "argon2id", Version(), PARAMETERS, Encode(salt, false), Encode(digest, false)]
  }

  lemma VersionIs19()
    ensures Version() == "v=19"
  {
    assert Framing.Decimal(1) == "1";
  }

  lemma JoinStep(part: string, rest: seq<string>, sep: char)
    requires rest != []
    ensures Join([part] + rest, sep) == part + [sep] + Join(rest, sep)
  {
    assert ([part] + rest)[1..] == rest;
  }

  lemma JoinSix(a: string, b: string, c: string, d: string, e: string, f: string)
    ensures Join([a, b, c, d, e, f], '$') == a + "$" + (b + "$" + (c + "$" + (d + "$" + (e + "$" + f))))
  {
    assert [a, b, c, d, e, f] == [a] + ([b] + ([c] + ([d] + ([e] + [f]))));
    JoinStep(a, [b] + ([c] + ([d] + ([e] + [f]))), '$');
    JoinStep(b, [c] + ([d] + ([e] + [f])), '$');
    JoinStep(c, [d] + ([e] + [f]), '$');
    JoinStep(d, [e] + [f], '$');
    JoinStep(e, [f], '$');
    assert Join([f], '$') == f;
  }

  lemma FlatIsNested(v: string, p: string, e: string, f: string)
    ensures "$argon2id$" + v + "$" + p + "$" + e + "$" + f ==
      "" + "$" + ("argon2id" + "$" + (v + "$" + (p + "$" + (e + "$" + f))))
  {
    assert "$argon2id$" == "" + "$" + ("argon2id" + "$");
  }

  lemma PrintIsJoined(salt: seq<Byte>, digest: seq<Byte>)
    ensures Print(salt, digest) == Join(Parts(salt, digest), '$')
  {
    hide Encode, Version, Join;
    FlatIsNested(Version(), PARAMETERS, Encode(salt, false), Encode(digest, false));
    JoinSix("", "argon2id", Version(), PARAMETERS, Encode(salt, false), Encode(digest, false));
  }

  lemma PartsAreClean(salt: seq<Byte>, digest: seq<Byte>)
    ensures forall i :: 0 <= i < 6 ==> Without(Parts(salt, digest)[i], '$')
  {
    VersionIs19();
    EncodedHasNo(salt, false);
    EncodedHasNo(digest, false);
  }

  /** Every string that is printed parses, to the same salt and digest. */
  lemma ParsesWhatItPrints(salt: seq<Byte>, digest: seq<Byte>)
    requires |salt| == 16 && |digest| == 32
    ensures Parse(Print(salt, digest)) == Some((salt, digest))
  {
    PrintIsJoined(salt, digest);
    PartsAreClean(salt, digest);
    SplitJoins(Parts(salt, digest), '$');
    RoundTrip(salt, false, false);
    RoundTrip(digest, false, false);
  }

  // ----- Passwords -----

  // Unicode and Argon2id are functions of the environment.
  datatype Environment = Environment(
    utf8: string -> bool,
    nfc: string -> string,
    runes: string -> nat,
    common: string -> bool,
    argon2: (string, seq<Byte>) -> seq<Byte>)

  // What Unicode and Argon2id promise for one text: its NFC form is valid text that NFC leaves alone, a rune takes at
  // least a byte, NFC adds nothing to the empty text, and a digest has 32 bytes.
  predicate Lawful(env: Environment, password: string, salt: seq<Byte>) {
    var p := env.nfc(password);
    && (env.utf8(password) ==> env.utf8(p) && env.nfc(p) == p)
    && env.runes(p) <= |p|
    && (password == "" ==> p == "")
    && |env.argon2(p, salt)| == 32
  }

  predicate HasLowerAndDigit(p: string) {
    && (exists i :: 0 <= i < |p| && 'a' <= p[i] <= 'z')
    && (exists i :: 0 <= i < |p| && '0' <= p[i] <= '9')
  }

  /** The flag loop of ValidatePassword. */
  method ScanPassword(p: string) returns (both: bool)
    ensures both == HasLowerAndDigit(p)
  {
    var lower, digit := false, false;
    for i := 0 to |p|
      invariant lower == exists k :: 0 <= k < i && 'a' <= p[k] <= 'z'
      invariant digit == exists k :: 0 <= k < i && '0' <= p[k] <= '9'
    {
      lower := lower || 'a' <= p[i] <= 'z';
      digit := digit || '0' <= p[i] <= '9';
    }
    both := lower && digit;
  }

  function ValidatePassword(env: Environment, password: string): Option<string> {
    if !env.utf8(password) then None
    else
      var p := env.nfc(password);
      var length := env.runes(p);
      if length < 8 || length > 64 then None
      else if length < 15 && !HasLowerAndDigit(p) then None
      else if env.common(p) then None
      else Some(p)
  }

  function NormalizeLoginPassword(env: Environment, password: string): Option<string> {
    if !env.utf8(password) || password == "" then None
    else
      var p := env.nfc(password);
      if env.runes(p) > 64 then None else Some(p)
  }

  function HashPassword(env: Environment, password: string, salt: seq<Byte>): Option<string> {
    match ValidatePassword(env, password)
    case None => None
    case Some(p) => Some(Print(salt, env.argon2(p, salt)))
  }

  datatype Verification = Matched | Mismatched | InvalidPassword | Unavailable

  function VerifyPassword(env: Environment, password: string, stored: string): Verification {
    match NormalizeLoginPassword(env, password)
    case None => InvalidPassword
    case Some(p) =>
      match Parse(stored)
      case None => Unavailable
      case Some((salt, digest)) => if env.argon2(p, salt) == digest then Matched else Mismatched
  }

  /**
   A password can be stored exactly when it is valid text whose normal form has 8 to 64 characters, is
   not common and, below 15 characters, has a lower-case letter and a digit.
   */
  lemma StorablePasswords(env: Environment, password: string, salt: seq<Byte>)
    ensures HashPassword(env, password, salt).Some? <==>
      var p := env.nfc(password);
      && env.utf8(password) && 8 <= env.runes(p) <= 64 && !env.common(p)
      && (env.runes(p) >= 15 ||
          ((exists i :: 0 <= i < |p| && 'a' <= p[i] <= 'z') && exists i :: 0 <= i < |p| && '0' <= p[i] <= '9'))
  {
  }

  /**
   A password can be presented exactly when it is valid text that is not empty and has a normal form of at most 64
   characters; any other is invalid whatever is stored.
   */
  lemma PresentablePasswords(env: Environment, password: string, stored: string)
    ensures VerifyPassword(env, password, stored) == InvalidPassword <==>
      !env.utf8(password) || password == "" || env.runes(env.nfc(password)) > 64
    ensures VerifyPassword(env, password, stored) == Unavailable <==>
      VerifyPassword(env, password, stored) != InvalidPassword && Parse(stored).None?
  {
  }

  lemma JoinFirst(c: char, rest: seq<string>, sep: char)
    requires rest != []
    ensures Join([[c] + rest[0]] + rest[1..], sep) == [c] + Join(rest, sep)
  {
    var first := [c] + rest[0];
    if |rest| > 1 {
      JoinStep(first, rest[1..], sep);
      assert rest == [rest[0]] + rest[1..];
      JoinStep(rest[0], rest[1..], sep);
      hide Join;
      assert [c] + (rest[0] + [sep] + Join(rest[1..], sep)) == first + [sep] + Join(rest[1..], sep);
    } else {
      assert [first] + rest[1..] == [first];
    }
  }

  lemma WithoutFirst(c: char, s: string, sep: char)
    requires c != sep && Without(s, sep)
    ensures Without([c] + s, sep)
  {
  }

  lemma {:induction false} JoinSplits(s: string, sep: char)
    ensures Join(Split(s, sep), sep) == s
    ensures forall i :: 0 <= i < |Split(s, sep)| ==> Without(Split(s, sep)[i], sep)
  {
    if s != [] {
      JoinSplits(s[1..], sep);
      var rest := Split(s[1..], sep);
      if s[0] == sep {
        JoinStep([], rest, sep);
        hide Join;
        assert Split(s, sep) == [[]] + rest;
      } else {
        JoinFirst(s[0], rest, sep);
        WithoutFirst(s[0], rest[0], sep);
        hide Join, Without;
        assert Split(s, sep) == [[s[0]] + rest[0]] + rest[1..];
      }
    }
  }

  // The text of a stored hash with these encodings.
  function Stored(salt: string, digest: string): string {
    "$argon2id$v=19$m=19456,t=2,p=1$" + salt + "$" + digest
  }

  predicate IsStored(stored: string, e: string, f: string, salt: seq<Byte>, digest: seq<Byte>) {
    && stored == Stored(e, f) && Without(e, '$') && Without(f, '$')
    && Decode(e, false, false) == Some(salt) && Decode(f, false, false) == Some(digest)
  }

  lemma StoredIsJoined(e: string, f: string)
    ensures Stored(e, f) == Join(["", "argon2id", "v=19", "m=19456,t=2,p=1", e, f], '$')
  {
    hide Join;
    JoinSix("", "argon2id", "v=19", "m=19456,t=2,p=1", e, f);
    FlatIsNested("v=19", "m=19456,t=2,p=1", e, f);
    assert "$argon2id$v=19$m=19456,t=2,p=1$" == "$argon2id$" + "v=19" + "$" + "m=19456,t=2,p=1" + "$";
  }

  /**
   A stored string parses exactly when it is of the one version and cost, with a salt of 16 and a digest of 32 bytes
   in base64.
   */
  lemma ParsesExactly(stored: string, salt: seq<Byte>, digest: seq<Byte>)
    ensures Parse(stored) == Some((salt, digest)) <==>
      && |salt| == 16 && |digest| == 32
      && exists e, f :: IsStored(stored, e, f, salt, digest)
  {
    VersionIs19();
    var parts := Split(stored, '$');
    JoinSplits(stored, '$');
    hide Decode, Join, Split;
    if Parse(stored) == Some((salt, digest)) {
      assert parts == ["", "argon2id", "v=19", "m=19456,t=2,p=1", parts[4], parts[5]];
      StoredIsJoined(parts[4], parts[5]);
      assert IsStored(stored, parts[4], parts[5], salt, digest);
    }
    if e, f :| |salt| == 16 && |digest| == 32 && IsStored(stored, e, f, salt, digest) {
      StoredIsJoined(e, f);
      var given := ["", "argon2id", "v=19", "m=19456,t=2,p=1", e, f];
      SplitJoins(given, '$');
      assert parts == given && |parts| == 6 && parts[4] == e && parts[5] == f;
      assert parts[0] == "" && parts[1] == "argon2id" && parts[2] == Version() && parts[3] == PARAMETERS;
    }
  }

  /** Every password that can be stored can log in, in its own form and in normal form. */
  lemma AcceptedPasswordsVerify(env: Environment, password: string, salt: seq<Byte>)
    requires Lawful(env, password, salt) && |salt| == 16 && HashPassword(env, password, salt).Some?
    ensures VerifyPassword(env, password, HashPassword(env, password, salt).value) == Matched
    ensures VerifyPassword(env, env.nfc(password), HashPassword(env, password, salt).value) == Matched
  {
    var p := env.nfc(password);
    ParsesWhatItPrints(salt, env.argon2(p, salt));
    hide Parse, Print;
  }

  /** Against a printed hash another password is compared by its digest under the same salt, and nothing else. */
  lemma OthersCompareDigests(env: Environment, password: string, salt: seq<Byte>, other: string)
    requires Lawful(env, password, salt) && |salt| == 16 && HashPassword(env, password, salt).Some?
    requires NormalizeLoginPassword(env, other).Some?
    ensures VerifyPassword(env, other, HashPassword(env, password, salt).value) ==
      if env.argon2(env.nfc(other), salt) == env.argon2(env.nfc(password), salt) then Matched else Mismatched
  {
    ParsesWhatItPrints(salt, env.argon2(env.nfc(password), salt));
  }
}
