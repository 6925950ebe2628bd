/** Abstract stand-ins for the two cryptographic libraries the backend
    calls: bcrypt for password hashes and PyJWT for signed tokens. A hash
    remembers only what verification needs; a token is either one this
    server signed or any other string. Times are whole seconds. */
module Crypto {
  import opened Common

  /** One byte of an encoded string. */
  newtype byte = x: int | 0 <= x < 256

  /** The UTF-8 encoding of one character (a Unicode scalar value). */
  function Utf8Char(c: char): (r: seq<byte>)
    ensures 1 <= |r| <= 4
  {
    var n := c as int;
    if n < 0x80 then [n as byte]
    else if n < 0x800 then [(0xC0 + n / 64) as byte, (0x80 + n % 64) as byte]
    else if n < 0x1_0000 then
      [(0xE0 + n / 4096) as byte, (0x80 + n / 64 % 64) as byte, (0x80 + n % 64) as byte]
    else
      [(0xF0 + n / 262144) as byte, (0x80 + n / 4096 % 64) as byte,
       (0x80 + n / 64 % 64) as byte, (0x80 + n % 64) as byte]
  }

  /** `s.encode('utf-8')`. */
  function Utf8Encode(s: string): (r: seq<byte>)
    ensures |s| <= |r| <= 4 * |s|
  {
    if s == [] then [] else Utf8Char(s[0]) + Utf8Encode(s[1..])
  }

  /** The length of a character's encoding, read off its first byte. */
  function SequenceLength(lead: byte): nat {
    if lead < 0x80 then 1 else if lead < 0xE0 then 2 else if lead < 0xF0 then 3 else 4
  }

  lemma LeadGivesLength(c: char)
    ensures SequenceLength(Utf8Char(c)[0]) == |Utf8Char(c)|
  {
  }

  /** The code point a well-formed UTF-8 sequence of one character
      stands for. */
  function Utf8Value(r: seq<byte>): int
    requires 1 <= |r| <= 4
  {
    if |r| == 1 then r[0] as int
    else if |r| == 2 then (r[0] as int - 0xC0) * 64 + (r[1] as int - 0x80)
    else if |r| == 3 then ((r[0] as int - 0xE0) * 64 + (r[1] as int - 0x80)) * 64 + (r[2] as int - 0x80)
    else (((r[0] as int - 0xF0) * 64 + (r[1] as int - 0x80)) * 64 + (r[2] as int - 0x80)) * 64 + (r[3] as int - 0x80)
  }

  /** Decoding a character's encoding gives the character back. */
  lemma Utf8CharRoundTrip(c: char)
    ensures Utf8Value(Utf8Char(c)) == c as int
  {
    var n := c as int;
    var q1 := n / 64;
    var q2 := q1 / 64;
    var q3 := q2 / 64;
    assert n == q1 * 64 + n % 64;
    assert q1 == q2 * 64 + q1 % 64;
    assert q2 == q3 * 64 + q2 % 64;
    assert n / 4096 == q2 by {
      assert n == q2 * 4096 + (q1 % 64) * 64 + n % 64;
    }
    assert n / 262144 == q3 by {
      assert n == q3 * 262144 + (q2 % 64) * 4096 + (q1 % 64) * 64 + n % 64;
    }
  }

  lemma Utf8CharInjective(c: char, d: char)
    ensures Utf8Char(c) == Utf8Char(d) ==> c == d
  {
    Utf8CharRoundTrip(c);
    Utf8CharRoundTrip(d);
  }

  /** Encoding distributes over concatenation. */
  lemma {:induction false} Utf8EncodeConcat(a: string, b: string)
    ensures Utf8Encode(a + b) == Utf8Encode(a) + Utf8Encode(b)
  {
    if a != [] {
      assert (a + b)[0] == a[0] && (a + b)[1..] == a[1..] + b;
      Utf8EncodeConcat(a[1..], b);
    } else {
      assert a + b == b;
    }
  }

  /** Distinct strings have distinct encodings. */
  lemma {:induction false} Utf8EncodeInjective(a: string, b: string)
    ensures Utf8Encode(a) == Utf8Encode(b) ==> a == b
  {
    if Utf8Encode(a) == Utf8Encode(b) && a != [] && b != [] {
      var ea, eb := Utf8Char(a[0]), Utf8Char(b[0]);
      assert Utf8Encode(a)[0] == ea[0] && Utf8Encode(b)[0] == eb[0];
      LeadGivesLength(a[0]);
      LeadGivesLength(b[0]);
      assert |ea| == |eb|;
      assert ea == Utf8Encode(a)[..|ea|] && eb == Utf8Encode(b)[..|eb|];
      Utf8CharInjective(a[0], b[0]);
      assert Utf8Encode(a[1..]) == Utf8Encode(a)[|ea|..] == Utf8Encode(b)[|eb|..] == Utf8Encode(b[1..]);
      Utf8EncodeInjective(a[1..], b[1..]);
      assert a == [a[0]] + a[1..] && b == [b[0]] + b[1..];
    }
  }

  /** The bytes bcrypt reads of a password: the first 72 bytes of its
      UTF-8 encoding. */
  function BcryptKey(password: string): (k: seq<byte>)
    ensures |k| <= 72 && |k| <= |Utf8Encode(password)| && k == Utf8Encode(password)[..|k|]
    ensures |Utf8Encode(password)| <= 72 ==> k == Utf8Encode(password)
    ensures |Utf8Encode(password)| >= 72 ==> |k| == 72
  {
    var e := Utf8Encode(password);
    if |e| <= 72 then e else e[..72]
  }

  /** The password is short enough that bcrypt reads all of it. */
  predicate FitsBcrypt(password: string) {
    |Utf8Encode(password)| <= 72
  }

  /** A bcrypt hash: what it depends on of the password, and a random salt. */
  datatype PasswordHash = PasswordHash(key: seq<byte>, salt: nat)

  /** `bcrypt.hashpw(password.encode('utf-8'), gensalt())`, the salt being
      the random input. */
  function HashPassword(password: string, salt: nat): PasswordHash {
    PasswordHash(BcryptKey(password), salt)
  }

  /** `bcrypt.checkpw(password.encode('utf-8'), hash)`. */
  predicate VerifyPassword(password: string, hash: PasswordHash) {
    BcryptKey(password) == hash.key
  }

  /** A hash verifies exactly the passwords that agree with the hashed one
      in their first 72 encoded bytes, whatever the salt: for passwords
      bcrypt reads whole, exactly the hashed password. */
  lemma HashVerifies(password: string, other: string, salt: nat)
    ensures VerifyPassword(password, HashPassword(password, salt))
    ensures VerifyPassword(other, HashPassword(password, salt)) <==> BcryptKey(other) == BcryptKey(password)
    ensures FitsBcrypt(password) && FitsBcrypt(other) ==>
              (VerifyPassword(other, HashPassword(password, salt)) <==> other == password)
  {
    Utf8EncodeInjective(password, other);
  }

  /** Whatever follows the first 72 encoded bytes is not read: two
      passwords that share such a beginning verify against each other. */
  lemma BytesAfter72Ignored(prefix: string, tail: string, otherTail: string, salt: nat)
    requires |Utf8Encode(prefix)| >= 72
    ensures VerifyPassword(prefix + otherTail, HashPassword(prefix + tail, salt))
  {
    Utf8EncodeConcat(prefix, tail);
    Utf8EncodeConcat(prefix, otherTail);
    PrefixOfConcat(Utf8Encode(prefix), Utf8Encode(tail), 72);
    PrefixOfConcat(Utf8Encode(prefix), Utf8Encode(otherTail), 72);
  }

  lemma PrefixOfConcat(e: seq<byte>, t: seq<byte>, k: nat)
    requires k <= |e|
    ensures (e + t)[..k] == e[..k]
  {
  }

  /** Seventy-two ASCII characters followed by 'X' or by 'Y': two different
      passwords, accepted by the same hash. */
  lemma LongPasswordsShareAHash(salt: nat)
    ensures var a := seq(72, _ => 'a');
            a + "X" != a + "Y" && VerifyPassword(a + "Y", HashPassword(a + "X", salt))
  {
    var a := seq(72, _ => 'a');
    AsciiEncodesBytewise(a);
    assert (a + "X")[72] != (a + "Y")[72];
    BytesAfter72Ignored(a, "X", "Y", salt);
  }

  /** An ASCII string encodes to one byte per character. */
  lemma {:induction false} AsciiEncodesBytewise(s: string)
    requires forall i :: 0 <= i < |s| ==> s[i] as int < 0x80
    ensures |Utf8Encode(s)| == |s|
  {
    if s != [] {
      AsciiEncodesBytewise(s[1..]);
    }
  }

  /** A claim value: a string, or an instant (the encoded `exp`). */
  datatype Claim = Text(text: string) | Instant(seconds: int)

  type Claims = map<string, Claim>

  /** A token presented to the server: one it signed with its key, or
      anything else (tampered, foreign, not a token at all). */
  datatype Token = Signed(claims: Claims) | Unsigned(text: string)

  datatype Decoded = Payload(claims: Claims) | ExpiredSignature | InvalidToken

  /** `jwt.encode(claims, key)`. */
  function Encode(claims: Claims): Token {
    Signed(claims)
  }

  /** `jwt.decode(token, key)` at time `now`: a token not signed with the
      key, or whose `exp` is not a number, is invalid; one whose `exp` is
      not after `now` has expired (no leeway); otherwise its claims. */
  function Decode(token: Token, now: int): (r: Decoded)
    ensures r.Payload? ==> token == Signed(r.claims)
    ensures r.ExpiredSignature? ==> token.Signed? && "exp" in token.claims
  {
    match token
    case Unsigned(_) => InvalidToken
    case Signed(c) =>
      if "exp" !in c then Payload(c)
      else match c["exp"]
        case Text(_) => InvalidToken
        case Instant(t) => if t <= now then ExpiredSignature else Payload(c)
  }

  /** Decoding what was encoded gives the claims back until the expiry. */
  lemma EncodeDecode(claims: Claims, exp: int, now: int)
    requires "exp" in claims && claims["exp"] == Instant(exp)
    ensures now < exp ==> Decode(Encode(claims), now) == Payload(claims)
    ensures exp <= now ==> Decode(Encode(claims), now) == ExpiredSignature
  {
  }
}
