/** HS256 tokens and stored password hashes of nl-user/src/auth_crypto.cpp.  HMAC-SHA256
    and PBKDF2 are arbitrary functions here. */
module Token {
  import opened Wrappers
  import opened Sequences
  import opened Text
  import opened Base64Url

  type Hmac = (seq<byte>, string) -> seq<byte>

  /** The bytes of a literal. */
  function Bytes(s: string): seq<byte> { seq(|s|, i requires 0 <= i < |s| => s[i] as int % 256) }

  const HEADER := "{\"alg\":\"HS256\",\"typ\":\"JWT\"}"

  // ----------------------------------------------------------------------------- tokens

  function SigningInput(payload: seq<byte>): string {
    Encode(Bytes(HEADER)) + "." + Encode(payload)
  }

  /** `sign_hs256_jwt`; `payload` is the dumped claims. */
  method Sign(payload: seq<byte>, secret: seq<byte>, hmac: Hmac) returns (token: string)
    ensures token == if secret == [] then "" else
              SigningInput(payload) + "." + Encode(hmac(secret, SigningInput(payload)))
  {
    if secret == [] {
      return "";
    }
    var h := EncodeText(Bytes("{\"alg\":\"HS256\",\"typ\":\"JWT\"}"));
    var p := EncodeText(payload);
    var signing := h + "." + p;
    var s := EncodeText(hmac(secret, signing));
    token := signing + "." + s;
  }

  /** `verify_hs256_signature`: the parts before, between and after the first two dots. */
  function Verify(token: string, secret: seq<byte>, hmac: Hmac): Option<seq<byte>> {
    if secret == [] then None
    else
      var (a, rest) :- Cut(token, '.');
      var (b, c) :- Cut(rest, '.');
      if '.' in c then None
      else if Decode(c) != hmac(secret, a + "." + b) then None
      else if Decode(b) == [] then None
      else Some(Decode(b))
  }

  /** A token of three parts. */
  function Parts(a: string, b: string, c: string): string { a + "." + b + "." + c }

  predicate Dotless(s: string) { '.' !in s }

  lemma PartsAre(a: string, b: string, c: string)
    requires Dotless(a) && Dotless(b)
    ensures Cut(Parts(a, b, c), '.') == Some((a, b + ['.'] + c)) && Cut(b + ['.'] + c, '.') == Some((b, c))
  {
    hide Cut;
    Glue(a, b, c);
    CutIs(a, '.', b + ['.'] + c);
    CutIs(b, '.', c);
  }

  lemma Glue(a: string, b: string, c: string)
    ensures Parts(a, b, c) == a + ['.'] + (b + ['.'] + c)
  {
  }

  lemma VerifyParts(a: string, b: string, c: string, secret: seq<byte>, hmac: Hmac)
    requires Dotless(a) && Dotless(b)
    ensures Verify(Parts(a, b, c), secret, hmac) ==
              if secret != [] && Dotless(c) && Decode(c) == hmac(secret, a + "." + b) && Decode(b) != []
              then Some(Decode(b)) else None
  {
    PartsAre(a, b, c);
  }

  /** A token is accepted exactly if it is three dotless parts, the third decoding to the
      HMAC of the first two, and the middle one to the payload. */
  lemma VerifyAccepts(token: string, secret: seq<byte>, hmac: Hmac, payload: seq<byte>)
    ensures Verify(token, secret, hmac) == Some(payload) <==>
            secret != [] && payload != [] &&
            exists a, b, c :: Dotless(a) && Dotless(b) && Dotless(c) && token == Parts(a, b, c) &&
              Decode(c) == hmac(secret, a + "." + b) && Decode(b) == payload
  {
    if Verify(token, secret, hmac) == Some(payload) {
      var a, b, c := Split(token, secret, hmac);
      VerifyParts(a, b, c, secret, hmac);
    }
    forall a, b, c | Dotless(a) && Dotless(b) && Dotless(c) && token == Parts(a, b, c)
      ensures Verify(token, secret, hmac) ==
                if secret != [] && Decode(c) == hmac(secret, a + "." + b) && Decode(b) != [] then Some(Decode(b)) else None
    {
      VerifyParts(a, b, c, secret, hmac);
    }
  }

  lemma Split(token: string, secret: seq<byte>, hmac: Hmac) returns (a: string, b: string, c: string)
    ensures Verify(token, secret, hmac).Some? ==> Dotless(a) && Dotless(b) && Dotless(c) && token == Parts(a, b, c)
  {
    hide Cut, Decode, Parts;
    a, b, c := "", "", "";
    if Verify(token, secret, hmac).Some? {
      CutGives(token, '.');
      var rest := Cut(token, '.').value.1;
      CutGives(rest, '.');
      a, b, c := Cut(token, '.').value.0, Cut(rest, '.').value.0, Cut(rest, '.').value.1;
      Glue(a, b, c);
    }
  }

  /** A signed token verifies and gives back the exact payload; the two empty cases,
      empty secret and empty payload, are refused. */
  lemma SignVerify(payload: seq<byte>, secret: seq<byte>, hmac: Hmac)
    ensures var token := SigningInput(payload) + "." + Encode(hmac(secret, SigningInput(payload)));
            Verify(token, secret, hmac) == if secret == [] || payload == [] then None else Some(payload)
  {
    var mac := hmac(secret, SigningInput(payload));
    RoundTrip(Bytes(HEADER));
    RoundTrip(payload);
    RoundTrip(mac);
    VerifyParts(Encode(Bytes(HEADER)), Encode(payload), Encode(mac), secret, hmac);
  }

  // -------------------------------------------------------------------------- passwords

  function HexDigit(n: int): char
    requires 0 <= n < 16
  {
    if n < 10 then (n as char) + '0' else ((n - 10) as char) + 'a'
  }

  function HexNibble(c: char): int {
    if '0' <= c <= '9' then (c - '0') as int
    else if 'a' <= c <= 'f' then (c - 'a') as int + 10
    else if 'A' <= c <= 'F' then (c - 'A') as int + 10
    else -1
  }

  /** Both cases are read, and nothing else is. */
  lemma NibbleIs(c: char)
    ensures HexNibble(c) ==
              if c in "0123456789" then (c - '0') as int
              else match c
                   case 'a' => 10 case 'b' => 11 case 'c' => 12 case 'd' => 13 case 'e' => 14 case 'f' => 15
                   case 'A' => 10 case 'B' => 11 case 'C' => 12 case 'D' => 13 case 'E' => 14 case 'F' => 15
                   case _ => -1
  {
    assert '0' <= c <= '9' <==> c in "0123456789" by {
      assert c in "0123456789" <==> exists i :: 0 <= i < 10 && "0123456789"[i] == c;
    }
  }

  function ToHex(data: seq<byte>): string {
    if data == [] then "" else [HexDigit(data[0] / 16), HexDigit(data[0] % 16)] + ToHex(data[1..])
  }

  function FromHexDigits(hex: string): Option<seq<byte>>
    requires |hex| % 2 == 0
  {
    if hex == "" then Some([])
    else
      var hi, lo := HexNibble(hex[0]), HexNibble(hex[1]);
      if hi < 0 || lo < 0 then None
      else
        var rest :- FromHexDigits(hex[2..]);
        Some([hi * 16 + lo] + rest)
  }

  /** Every failure comes out as the empty vector. */
  function FromHex(hex: string): seq<byte> {
    if |hex| % 2 != 0 then [] else match FromHexDigits(hex) case None => [] case Some(d) => d
  }

  lemma {:induction false} HexRoundTrip(data: seq<byte>)
    ensures |ToHex(data)| == 2 * |data| && FromHexDigits(ToHex(data)) == Some(data)
    ensures '$' !in ToHex(data)
  {
    if data != [] {
      HexRoundTrip(data[1..]);
      var hex := ToHex(data);
      assert hex[2..] == ToHex(data[1..]);
      NibbleRoundTrip(data[0] / 16);
      NibbleRoundTrip(data[0] % 16);
      assert [data[0]] + data[1..] == data;
    }
  }

  lemma NibbleRoundTrip(n: int)
    requires 0 <= n < 16
    ensures HexNibble(HexDigit(n)) == n && HexDigit(n) != '$'
  {
  }

  type Kdf = (seq<byte>, seq<byte>, int) -> seq<byte>

  /** `hash_password` with the random salt given; `rounds` is `kPbkdf2Iterations`. */
  function HashPassword(password: seq<byte>, salt: seq<byte>, kdf: Kdf, rounds: int): string {
    "pbkdf2" + "$" + (Decimal(rounds) + "$" + (ToHex(salt) + "$" + ToHex(kdf(password, salt, rounds))))
  }

  /** `verify_password`. */
  predicate VerifyPassword(password: seq<byte>, stored: string, kdf: Kdf) {
    var f := Fields(stored);
    f.Some? && f.value.0 == "pbkdf2" &&
    CheckPassword(password, StoI(f.value.1), FromHex(f.value.2), FromHex(f.value.3), kdf)
  }

  function Fields(stored: string): Option<(string, string, string, string)> {
    var (scheme, s1) :- Cut(stored, '$');
    var (rounds, s2) :- Cut(s1, '$');
    var (salt, digest) :- Cut(s2, '$');
    Some((scheme, rounds, salt, digest))
  }

  predicate CheckPassword(password: seq<byte>, rounds: Option<int>, salt: seq<byte>, digest: seq<byte>, kdf: Kdf) {
    rounds.Some? && salt != [] && |digest| == 32 && kdf(password, salt, rounds.value) == digest
  }

  lemma FieldsAre(a: string, b: string, c: string, d: string)
    requires '$' !in a && '$' !in b && '$' !in c
    ensures Fields(a + "$" + (b + "$" + (c + "$" + d))) == Some((a, b, c, d))
  {
    CutIs(a, '$', b + "$" + (c + "$" + d));
    CutIs(b, '$', c + "$" + d);
    CutIs(c, '$', d);
  }

  lemma DecimalField(n: int)
    requires 0 <= n < 0x8000_0000
    ensures '$' !in Decimal(n) && StoI(Decimal(n)) == Some(n)
  {
    AppendNothing(Decimal(n));
    ScanDecimal(n, []);
    var d := Digits(n);
    assert forall i :: 0 <= i < |d| ==> IsDigit(d[i]);
  }

  lemma HexField(data: seq<byte>)
    ensures FromHex(ToHex(data)) == data && '$' !in ToHex(data)
  {
    HexRoundTrip(data);
  }

  lemma StoredFields(salt: seq<byte>, rounds: int, digest: seq<byte>, stored: string)
    requires 0 <= rounds < 0x8000_0000
    requires stored == "pbkdf2" + "$" + (Decimal(rounds) + "$" + (ToHex(salt) + "$" + ToHex(digest)))
    ensures Fields(stored) == Some(("pbkdf2", Decimal(rounds), ToHex(salt), ToHex(digest)))
  {
    HexField(salt);
    DecimalField(rounds);
    FieldsAre("pbkdf2", Decimal(rounds), ToHex(salt), ToHex(digest));
  }

  /** `a$b$c$d`, where only the last may hold further separators. */
  lemma FieldsGive(stored: string)
    requires Fields(stored).Some?
    ensures var (a, b, c, d) := Fields(stored).value;
            '$' !in a && '$' !in b && '$' !in c && stored == a + "$" + (b + "$" + (c + "$" + d))
  {
    CutGives(stored, '$');
    var s1 := Cut(stored, '$').value.1;
    CutGives(s1, '$');
    var s2 := Cut(s1, '$').value.1;
    CutGives(s2, '$');
    var (a, b, c, d) := Fields(stored).value;
    assert s2 == c + "$" + d && s1 == b + "$" + s2 && stored == a + "$" + s1;
  }

  predicate Stores(stored: string, rounds: string, salt: string, digest: string) {
    '$' !in rounds && '$' !in salt && stored == "pbkdf2" + "$" + (rounds + "$" + (salt + "$" + digest))
  }

  /** A password is accepted exactly for a stored text of that form with a number, a salt and
      32 bytes that the key derivation gives for them. */
  lemma PasswordAccepts(password: seq<byte>, stored: string, kdf: Kdf)
    ensures VerifyPassword(password, stored, kdf) <==>
            exists rounds, salt, digest :: Stores(stored, rounds, salt, digest) &&
              StoI(rounds).Some? && FromHex(salt) != [] && |FromHex(digest)| == 32 &&
              kdf(password, FromHex(salt), StoI(rounds).value) == FromHex(digest)
  {
    hide StoI, FromHex;
    if VerifyPassword(password, stored, kdf) {
      FieldsGive(stored);
      var (a, b, c, d) := Fields(stored).value;
      assert Stores(stored, b, c, d);
    }
    forall rounds, salt, digest | Stores(stored, rounds, salt, digest)
      ensures Fields(stored) == Some(("pbkdf2", rounds, salt, digest))
    {
      FieldsAre("pbkdf2", rounds, salt, digest);
    }
  }

  /** A stored hash is accepted for a password exactly if it has a salt and 32 bytes, and the
      key derivation cannot tell the password from the one that was stored. */
  lemma PasswordRoundTrip(stored: seq<byte>, tried: seq<byte>, salt: seq<byte>, kdf: Kdf, rounds: int)
    requires 0 <= rounds < 0x8000_0000
    ensures VerifyPassword(tried, HashPassword(stored, salt, kdf, rounds), kdf) <==>
            salt != [] && |kdf(stored, salt, rounds)| == 32 && kdf(tried, salt, rounds) == kdf(stored, salt, rounds)
  {
    var digest := kdf(stored, salt, rounds);
    StoredFields(salt, rounds, digest, HashPassword(stored, salt, kdf, rounds));
    HexField(salt);
    HexField(digest);
    DecimalField(rounds);
  }
}
