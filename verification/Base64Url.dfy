/** `base64url_encode` and `base64url_decode` of nl-user/src/auth_crypto.cpp.  The block
    coder they call, OpenSSL's, follows section 4 of RFC 4648; without padding and with
    '-' and '_' the result is the base64url of section 5. */
module Base64Url {
  import opened Wrappers
  import opened Sequences

  type byte = n: int | 0 <= n < 256
  type sextet = n: int | 0 <= n < 64

  // ------------------------------------------------------------------ the block coder

  function Symbol(n: sextet): char {
    if n < 26 then (n as char) + 'A'
    else if n < 52 then ((n - 26) as char) + 'a'
    else if n < 62 then ((n - 52) as char) + '0'
    else if n == 62 then '+' else '/'
  }

  /** '=' counts as zero bits; anything outside the alphabet is an error. */
  function Bits(c: char): Option<sextet> {
    if 'A' <= c <= 'Z' then Some((c - 'A') as int)
    else if 'a' <= c <= 'z' then Some((c - 'a') as int + 26)
    else if '0' <= c <= '9' then Some((c - '0') as int + 52)
    else if c == '+' then Some(62)
    else if c == '/' then Some(63)
    else if c == '=' then Some(0)
    else None
  }

  function Quad(a: byte, b: byte, c: byte): string {
    [Symbol(a / 4), Symbol(a % 4 * 16 + b / 16), Symbol(b % 16 * 4 + c / 64), Symbol(c % 64)]
  }

  function Triple(s: string): Option<seq<byte>>
    requires |s| == 4
  {
    var p :- Bits(s[0]);
    var q :- Bits(s[1]);
    var r :- Bits(s[2]);
    var t :- Bits(s[3]);
    Some([p * 4 + q / 16, q % 16 * 16 + r / 4, r % 4 * 64 + t])
  }

  /** `EVP_EncodeBlock`. */
  function EncodeBlock(data: seq<byte>): string {
    if |data| >= 3 then Quad(data[0], data[1], data[2]) + EncodeBlock(data[3..])
    else if |data| == 2 then Quad(data[0], data[1], 0)[..3] + ['=']
    else if |data| == 1 then Quad(data[0], 0, 0)[..2] + ['=', '=']
    else ""
  }

  /** `EVP_DecodeBlock`; it does not drop the bytes that come from padding. */
  function DecodeBlock(s: string): Option<seq<byte>> {
    if s == "" then Some([])
    else if |s| < 4 then None
    else
      var head :- Triple(s[..4]);
      var tail :- DecodeBlock(s[4..]);
      Some(head + tail)
  }

  // --------------------------------------------------------------------- the functions

  function ToUrlChar(c: char): char { if c == '+' then '-' else if c == '/' then '_' else c }

  function FromUrlChar(c: char): char { if c == '-' then '+' else if c == '_' then '/' else c }

  function ToUrl(s: string): string { seq(|s|, i requires 0 <= i < |s| => ToUrlChar(s[i])) }

  function FromUrl(s: string): string { seq(|s|, i requires 0 <= i < |s| => FromUrlChar(s[i])) }

  function Unpad(s: string): string {
    if s != [] && s[|s| - 1] == '=' then Unpad(s[..|s| - 1]) else s
  }

  function Fill(n: nat): string { seq(n, _ => '=') }

  function Missing(n: nat): nat { (4 - n % 4) % 4 }

  /** '=' appended up to a multiple of four characters. */
  function Repad(s: string): string { s + Fill(Missing(|s|)) }

  function Encode(data: seq<byte>): string { Unpad(ToUrl(EncodeBlock(data))) }

  function PadCount(s: string): nat {
    (if |s| >= 1 && s[|s| - 1] == '=' then 1 else 0) + (if |s| >= 2 && s[|s| - 2] == '=' then 1 else 0)
  }

  /** Every failure comes out as the empty string. */
  function Decode(text: string): seq<byte> {
    var s := Repad(FromUrl(text));
    var d := DecodeBlock(s);
    if d.None? || |d.value| < PadCount(s) then [] else d.value[..|d.value| - PadCount(s)]
  }

  lemma FillOne(s: string)
    requires |s| % 4 != 0
    ensures Missing(|s + ['=']|) == Missing(|s|) - 1
    ensures s + Fill(Missing(|s|)) == s + ['='] + Fill(Missing(|s|) - 1)
  {
    assert Fill(Missing(|s|)) == ['='] + Fill(Missing(|s|) - 1);
  }

  method EncodeText(data: seq<byte>) returns (out: string)
    ensures out == Encode(data)
  {
    out := EncodeBlock(data);
    ghost var block := out;
    for i := 0 to |out|
      invariant |out| == |block|
      invariant forall j :: 0 <= j < i ==> out[j] == ToUrlChar(block[j])
      invariant forall j :: i <= j < |out| ==> out[j] == block[j]
    {
      if out[i] == '+' {
        out := out[i := '-'];
      } else if out[i] == '/' {
        out := out[i := '_'];
      }
    }
    assert out == ToUrl(block);
    while out != [] && out[|out| - 1] == '='
      invariant Unpad(out) == Encode(data)
      decreases |out|
    {
      out := out[..|out| - 1];
    }
  }

  method DecodeText(input: string) returns (out: seq<byte>)
    ensures out == Decode(input)
  {
    hide DecodeBlock;
    var text := input;
    for i := 0 to |text|
      invariant |text| == |input|
      invariant forall j :: 0 <= j < i ==> text[j] == FromUrlChar(input[j])
      invariant forall j :: i <= j < |text| ==> text[j] == input[j]
    {
      if text[i] == '-' {
        text := text[i := '+'];
      } else if text[i] == '_' {
        text := text[i := '/'];
      }
    }
    assert text == FromUrl(input);
    while |text| % 4 != 0
      invariant text + Fill(Missing(|text|)) == Repad(FromUrl(input))
      decreases Missing(|text|)
    {
      FillOne(text);
      text := text + ['='];
    }
    assert text + Fill(0) == text;
    var d := DecodeBlock(text);
    if d.None? {
      return [];
    }
    var pad := 0;
    if |text| >= 1 && text[|text| - 1] == '=' {
      pad := pad + 1;
    }
    if |text| >= 2 && text[|text| - 2] == '=' {
      pad := pad + 1;
    }
    if |d.value| < pad {
      return [];
    }
    out := d.value[..|d.value| - pad];
  }

  // --------------------------------------------------------------------------- proofs

  lemma SymbolBits(n: sextet)
    ensures Bits(Symbol(n)) == Some(n)
    ensures Symbol(n) != '=' && Symbol(n) != '-' && Symbol(n) != '_' && Symbol(n) != '.'
  {
  }

  lemma SextetsOf(a: byte, b: byte, c: byte)
    ensures var (p, q, r, t) := (a / 4, a % 4 * 16 + b / 16, b % 16 * 4 + c / 64, c % 64);
            p * 4 + q / 16 == a && q % 16 * 16 + r / 4 == b && r % 4 * 64 + t == c
  {
    assert (a % 4 * 16 + b / 16) / 16 == a % 4 && (a % 4 * 16 + b / 16) % 16 == b / 16;
    assert (b % 16 * 4 + c / 64) / 4 == b % 16 && (b % 16 * 4 + c / 64) % 4 == c / 64;
  }

  lemma TripleOf(s: string, p: sextet, q: sextet, r: sextet, t: sextet)
    requires |s| == 4 && Bits(s[0]) == Some(p) && Bits(s[1]) == Some(q) && Bits(s[2]) == Some(r) && Bits(s[3]) == Some(t)
    ensures Triple(s) == Some([p * 4 + q / 16, q % 16 * 16 + r / 4, r % 4 * 64 + t])
  {
  }

  lemma QuadTriple(a: byte, b: byte, c: byte)
    ensures Triple(Quad(a, b, c)) == Some([a, b, c])
  {
    SymbolBits(a / 4);
    SymbolBits(a % 4 * 16 + b / 16);
    SymbolBits(b % 16 * 4 + c / 64);
    SymbolBits(c % 64);
    TripleOf(Quad(a, b, c), a / 4, a % 4 * 16 + b / 16, b % 16 * 4 + c / 64, c % 64);
    SextetsOf(a, b, c);
  }

  predicate Plain(s: string) {
    forall i :: 0 <= i < |s| ==> s[i] != '=' && s[i] != '-' && s[i] != '_' && s[i] != '.'
  }

  lemma QuadPlain(a: byte, b: byte, c: byte)
    ensures Plain(Quad(a, b, c))
  {
    SymbolBits(a / 4);
    SymbolBits(a % 4 * 16 + b / 16);
    SymbolBits(b % 16 * 4 + c / 64);
    SymbolBits(c % 64);
  }

  /** Padding characters for `n` bytes. */
  function Pads(n: nat): (p: nat)
    ensures p <= 2
  {
    if n >= 3 then Pads(n - 3) else if n == 2 then 1 else if n == 1 then 2 else 0
  }

  function Zeros(n: nat): seq<byte> { if n == 0 then [] else if n == 1 then [0] else [0, 0] }

  /** The data and one zero byte for each padding character. */
  function Padded(data: seq<byte>): seq<byte> { data + Zeros(Pads(|data|)) }

  /** The encoded block is plain symbols and then padding. */
  lemma {:induction false} BlockShape(data: seq<byte>) returns (core: string, groups: nat)
    ensures EncodeBlock(data) == core + Fill(Pads(|data|)) && Plain(core)
    ensures |core| + Pads(|data|) == 4 * groups
  {
    if |data| >= 3 {
      var q := Quad(data[0], data[1], data[2]);
      var rest;
      rest, groups := BlockShape(data[3..]);
      QuadPlain(data[0], data[1], data[2]);
      core := q + rest;
      groups := groups + 1;
      assert q + (rest + Fill(Pads(|data|))) == core + Fill(Pads(|data|));
    } else if |data| == 2 {
      QuadPlain(data[0], data[1], 0);
      core, groups := Quad(data[0], data[1], 0)[..3], 1;
      assert Fill(1) == ['='];
    } else if |data| == 1 {
      QuadPlain(data[0], 0, 0);
      core, groups := Quad(data[0], 0, 0)[..2], 1;
      assert Fill(2) == ['=', '='];
    } else {
      core, groups := [], 0;
    }
  }

  lemma LastTwo(a: byte, b: byte, s: string)
    requires s == Quad(a, b, 0)[..3] + ['=']
    ensures DecodeBlock(s) == Some([a, b, 0])
  {
    SymbolBits(a / 4);
    SymbolBits(a % 4 * 16 + b / 16);
    SymbolBits(b % 16 * 4);
    TripleOf(s, a / 4, a % 4 * 16 + b / 16, b % 16 * 4, 0);
    SextetsOf(a, b, 0);
    DecodeLast(s, [a, b, 0]);
  }

  lemma LastOne(a: byte, s: string)
    requires s == Quad(a, 0, 0)[..2] + ['=', '=']
    ensures DecodeBlock(s) == Some([a, 0, 0])
  {
    SymbolBits(a / 4);
    SymbolBits(a % 4 * 16);
    TripleOf(s, a / 4, a % 4 * 16, 0, 0);
    SextetsOf(a, 0, 0);
    DecodeLast(s, [a, 0, 0]);
  }

  lemma PaddedShort(data: seq<byte>)
    ensures |data| == 2 ==> Padded(data) == [data[0], data[1], 0]
    ensures |data| == 1 ==> Padded(data) == [data[0], 0, 0]
  {
  }

  /** Blocks of at most two bytes. */
  lemma ShortRoundTrip(data: seq<byte>)
    requires |data| <= 2
    ensures DecodeBlock(EncodeBlock(data)) == Some(Padded(data))
  {
    PaddedShort(data);
    var s := EncodeBlock(data);
    if |data| == 2 {
      LastTwo(data[0], data[1], s);
    } else if |data| == 1 {
      LastOne(data[0], s);
    } else {
      AppendNothing(data);
    }
  }

  lemma DecodeStep(q: string, rest: string, head: seq<byte>, tail: seq<byte>)
    requires |q| == 4 && Triple(q) == Some(head) && DecodeBlock(rest) == Some(tail)
    ensures DecodeBlock(q + rest) == Some(head + tail)
  {
    assert (q + rest)[..4] == q && (q + rest)[4..] == rest;
  }

  /** Decoding the block gives the data and one zero byte for each padding character. */
  lemma {:induction false} BlockRoundTrip(data: seq<byte>)
    ensures DecodeBlock(EncodeBlock(data)) == Some(Padded(data))
  {
    if |data| >= 3 {
      var rest := data[3..];
      BlockRoundTrip(rest);
      DecodeGroup(data[0], data[1], data[2], EncodeBlock(rest), Padded(rest));
      ThreeThenRest(data, Zeros(Pads(|rest|)));
    } else {
      ShortRoundTrip(data);
    }
  }

  lemma DecodeLast(q: string, last: seq<byte>)
    requires |q| == 4 && Triple(q) == Some(last)
    ensures DecodeBlock(q) == Some(last)
  {
    DecodeStep(q, [], last, []);
    AppendNothing(q);
    AppendNothing(last);
  }

  lemma DecodeGroup(a: byte, b: byte, c: byte, rest: string, bytes: seq<byte>)
    requires DecodeBlock(rest) == Some(bytes)
    ensures DecodeBlock(Quad(a, b, c) + rest) == Some([a, b, c] + bytes)
  {
    QuadTriple(a, b, c);
    DecodeStep(Quad(a, b, c), rest, [a, b, c], bytes);
  }

  lemma ThreeThenRest(data: seq<byte>, z: seq<byte>)
    requires |data| >= 3
    ensures [data[0], data[1], data[2]] + (data[3..] + z) == data + z
  {
  }

  lemma RepadFill(core: string, n: nat, groups: nat)
    requires n <= 2 && |core| + n == 4 * groups
    ensures Repad(core) == core + Fill(n)
  {
    assert |core| % 4 == (4 - n) % 4;
  }

  lemma UrlInverse(core: string)
    requires Plain(core)
    ensures FromUrl(ToUrl(core)) == core && '=' !in ToUrl(core) && '.' !in ToUrl(core)
  {
    assert forall i :: 0 <= i < |core| ==> FromUrlChar(ToUrlChar(core[i])) == core[i];
  }

  lemma EncodeShape(data: seq<byte>) returns (core: string, groups: nat)
    ensures EncodeBlock(data) == core + Fill(Pads(|data|)) && Plain(core) && |core| + Pads(|data|) == 4 * groups
    ensures Encode(data) == ToUrl(core)
  {
    core, groups := BlockShape(data);
    var n := Pads(|data|);
    UrlInverse(core);
    assert ToUrl(core + Fill(n)) == ToUrl(core) + Fill(n);
    UnpadUrl(core, n);
  }

  lemma {:induction false} UnpadUrl(core: string, n: nat)
    requires Plain(core)
    ensures Unpad(ToUrl(core) + Fill(n)) == ToUrl(core)
  {
    var u := ToUrl(core);
    var s := u + Fill(n);
    if n == 0 {
      UrlInverse(core);
      assert s == u && forall i :: 0 <= i < |u| ==> u[i] in u;
    } else {
      UnpadUrl(core, n - 1);
      assert s[..|s| - 1] == u + Fill(n - 1);
    }
  }

  /** Decoding an encoding gives back every byte string. */
  lemma RoundTrip(data: seq<byte>)
    ensures Decode(Encode(data)) == data
    ensures '.' !in Encode(data)
  {
    var core, groups := EncodeShape(data);
    var n := Pads(|data|);
    UrlInverse(core);
    RepadFill(core, n, groups);
    BlockRoundTrip(data);
    PadCountFill(core, n);
    assert Padded(data)[..|data|] == data;
  }

  lemma PadCountFill(core: string, n: nat)
    requires n <= 2 && Plain(core)
    ensures PadCount(core + Fill(n)) == n
  {
    var s := core + Fill(n);
    assert forall i :: 0 <= i < |s| ==> s[i] == if i < |core| then core[i] else '=';
  }

  /** So two byte strings with the same text are the same. */
  lemma EncodeInjective(a: seq<byte>, b: seq<byte>)
    ensures Encode(a) == Encode(b) <==> a == b
  {
    RoundTrip(a);
    RoundTrip(b);
  }

  // ------------------------------------------------------------------------ the alphabet

  /** The characters in table 1 of section 4 of RFC 4648. */
  predicate InAlphabet(c: char) { 'A' <= c <= 'Z' || 'a' <= c <= 'z' || '0' <= c <= '9' || c == '+' || c == '/' }

  lemma {:induction false} ForeignBlock(s: string, i: nat)
    requires i < |s| && Bits(s[i]).None?
    ensures DecodeBlock(s).None?
    decreases |s|
  {
    if i >= 4 {
      ForeignBlock(s[4..], i - 4);
    } else if |s| >= 4 {
      assert s[..4][i] == s[i];
    }
  }

  /** A text with any character outside the url alphabet decodes to nothing; '+' and '/' are
      let through as they are. */
  lemma ForeignText(text: string, i: nat)
    requires i < |text| && !InAlphabet(text[i]) && text[i] !in {'-', '_', '='}
    ensures Decode(text) == []
  {
    var s := Repad(FromUrl(text));
    assert s[i] == FromUrlChar(text[i]);
    ForeignBlock(s, i);
  }
}
