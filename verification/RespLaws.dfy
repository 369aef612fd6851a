/** What printer and parser of nl-common/src/redis.cpp have to do with each other, and with
    a peer that closes in the middle of a reply. */
module RespLaws {
  import opened Wrappers
  import opened Sequences
  import opened Text
  import opened Resp

  const INT_MAX := 0x7fff_ffff
  const INT64_MAX := 0x7fff_ffff_ffff_ffff

  // ----------------------------------------------------------------------- RESP2 values

  datatype Value
    = Simple(s: string) | Error(s: string) | Integer(n: int) | Bulk(s: string) | NullBulk
    | Array(items: seq<Value>) | NullArray

  function Line(kind: char, s: string): string { [kind] + s + CRLF }

  function Print(v: Value): string {
    match v
    case Simple(s) => Line('+', s)
    case Error(s) => Line('-', s)
    case Integer(n) => Line(':', Decimal(n))
    case Bulk(s) => Line('$', Decimal(|s|)) + (s + CRLF)
    case NullBulk => Line('$', Decimal(-1))
    case Array(items) => Line('*', Decimal(|items|)) + PrintAll(items)
    case NullArray => Line('*', Decimal(-1))
  }

  function PrintAll(vs: seq<Value>): string {
    if vs == [] then "" else Print(vs[0]) + PrintAll(vs[1..])
  }

  /** What the protocol allows, within the sizes the parser can count. */
  predicate Printable(v: Value) {
    match v
    case Simple(s) => '\r' !in s && |s| < 16 * 1024 * 1024
    case Error(s) => '\r' !in s && |s| < 16 * 1024 * 1024
    case Integer(n) => -INT64_MAX - 1 <= n <= INT64_MAX
    case Bulk(s) => |s| <= INT_MAX
    case Array(items) => |items| <= INT_MAX && forall i :: 0 <= i < |items| ==> Printable(items[i])
    case _ => true
  }

  /** What the caller sees of a value; an error, wherever it stands, fails the whole reply. */
  function Meaning(v: Value): Option<Reply> {
    match v
    case Simple(s) => Some(Reply(false, s == "OK", 0, "", []))
    case Error(s) => None
    case Integer(n) => Some(Reply(false, false, n, "", []))
    case Bulk(s) => Some(Reply(false, false, 0, s, []))
    case NullBulk => Some(Reply(true, false, 0, "", []))
    case Array(items) =>
      var es :- MeaningAll(items);
      Some(Reply(false, false, 0, "", es))
    case NullArray => Some(Reply(true, false, 0, "", []))
  }

  function MeaningAll(vs: seq<Value>): Option<seq<string>> {
    if vs == [] then Some([])
    else
      var one :- Meaning(vs[0]);
      var rest :- MeaningAll(vs[1..]);
      Some(Resp.Kept(one) + rest)
  }

  // ----------------------------------------------------------------------------- lines

  function Pow10(k: nat): nat { if k == 0 then 1 else 10 * Pow10(k - 1) }

  lemma {:induction false} DigitsShort(n: nat, k: nat)
    requires 0 < k && n < Pow10(k)
    ensures |Digits(n)| <= k
  {
    if n >= 10 {
      DigitsShort(n / 10, k - 1);
    }
  }

  lemma DecimalClean(n: int)
    ensures '\r' !in Decimal(n)
  {
    var d := Digits(if n < 0 then -n else n);
    assert forall i :: 0 <= i < |d| ==> IsDigit(d[i]);
  }

  lemma DecimalText(n: int)
    requires -INT64_MAX - 1 <= n <= INT64_MAX
    ensures '\r' !in Decimal(n) && |Decimal(n)| <= 20
  {
    DecimalClean(n);
    assert Pow10(19) > INT64_MAX + 1 by { PowersOfTen(); }
    DigitsShort(if n < 0 then -n else n, 19);
  }

  lemma DecimalLine(n: int)
    requires -INT64_MAX - 1 <= n <= INT64_MAX
    ensures '\r' !in Decimal(n) && |Decimal(n)| <= 20
    ensures StoLL(Decimal(n)) == Some(n)
    ensures -INT_MAX <= n <= INT_MAX ==> StoI(Decimal(n)) == Some(n)
  {
    hide Decimal, ScanInt, Digits;
    DecimalText(n);
    AppendNothing(Decimal(n));
    ScanDecimal(n, []);
  }

  lemma PowersOfTen()
    ensures Pow10(19) == 10_000_000_000_000_000_000
  {
    assert Pow10(5) == 100_000;
    assert Pow10(10) == 10_000_000_000;
    assert Pow10(15) == 1_000_000_000_000_000;
  }

  lemma LineReads(kind: char, s: string, rest: string)
    requires kind != '\r' && '\r' !in s && |s| < LINE_LIMIT
    ensures LineIn(Line(kind, s) + rest) == Some(([kind] + s, rest))
  {
    var line := [kind] + s;
    LineFrom(line, CRLF + rest);
    assert Line(kind, s) + rest == line + (CRLF + rest);
  }

  // ---------------------------------------------------------------- printing and reading

  /** What reading should give: the meaning, and exactly what followed. */
  function Expected(m: Option<Reply>, tail: string): Reading {
    match m case None => Failed case Some(r) => Read(r, tail)
  }

  /** The parser after the first line. */
  lemma ReplyAfterLine(kind: char, s: string, rest: string)
    requires kind != '\r' && '\r' !in s && |s| < LINE_LIMIT
    ensures ReplyIn(Line(kind, s) + rest) == ReplyOf(kind, s, rest)
  {
    hide LineIn, Line, ElemsIn, BulkIn, StoI, StoLL;
    LineReads(kind, s, rest);
    assert ([kind] + s)[1..] == s;
  }

  function ReplyOf(kind: char, s: string, rest: string): Reading {
    if kind == '+' then Read(BLANK.(isStatusOk := s == "OK"), rest)
    else if kind == ':' then
      (match StoLL(s) case None => Threw(rest) case Some(n) => Read(BLANK.(num := n), rest))
    else if kind == '$' then
      (match StoI(s) case None => Threw(rest) case Some(len) => BulkIn(rest, len))
    else if kind == '*' then
      (match StoI(s)
       case None => Threw(rest)
       case Some(n) => if n < 0 then Read(BLANK.(isNull := true), rest) else ElemsIn(rest, n, []))
    else Failed
  }

  lemma BulkReads(s: string, tail: string)
    ensures BulkIn(s + CRLF + tail, |s|) == Read(BLANK.(bulk := s), tail)
  {
    var all := s + CRLF + tail;
    assert all[..|s|] == s && all[|s|..|s| + 2] == CRLF && all[|s| + 2..] == tail;
  }

  lemma ScalarReads(v: Value, tail: string)
    requires Printable(v) && !v.Array?
    ensures ReplyIn(Print(v) + tail) == Expected(Meaning(v), tail)
  {
    hide ReplyIn, Line, StoI, StoLL, ElemsIn;
    match v
    case Simple(s) => ReplyAfterLine('+', s, tail);
    case Error(s) => ReplyAfterLine('-', s, tail);
    case Integer(n) =>
      DecimalLine(n);
      ReplyAfterLine(':', Decimal(n), tail);
    case Bulk(s) =>
      DecimalLine(|s|);
      ReplyAfterLine('$', Decimal(|s|), s + CRLF + tail);
      hide BulkIn;
      BulkReads(s, tail);
      assert Print(v) + tail == Line('$', Decimal(|s|)) + (s + CRLF + tail);
    case NullBulk =>
      DecimalLine(-1);
      ReplyAfterLine('$', Decimal(-1), tail);
    case NullArray =>
      DecimalLine(-1);
      ReplyAfterLine('*', Decimal(-1), tail);
  }

  /** Every printed value, whatever the nesting, is read as what it means and exactly what
      follows is left. */
  lemma {:induction false} PrintReads(v: Value, tail: string)
    requires Printable(v)
    ensures ReplyIn(Print(v) + tail) == Expected(Meaning(v), tail)
    decreases v, 1
  {
    hide ReplyIn, ElemsIn, Line, StoI, StoLL, BulkIn;
    if v.Array? {
      DecimalLine(|v.items|);
      ReplyAfterLine('*', Decimal(|v.items|), PrintAll(v.items) + tail);
      assert Print(v) + tail == Line('*', Decimal(|v.items|)) + (PrintAll(v.items) + tail);
      ElemsRead(v, 0, [], tail);
      assert v.items[0..] == v.items;
    } else {
      ScalarReads(v, tail);
    }
  }

  /** Numbers beyond the 64 and 32 bits of the reader throw, and their line is gone. */
  lemma OversizedThrows(n: int, tail: string)
    requires |Decimal(n)| < 16 * 1024 * 1024
    ensures !(-0x8000_0000_0000_0000 <= n < 0x8000_0000_0000_0000) ==> ReplyIn(Line(':', Decimal(n)) + tail) == Threw(tail)
    ensures !(-0x8000_0000 <= n < 0x8000_0000) ==>
              ReplyIn(Line('$', Decimal(n)) + tail) == Threw(tail) && ReplyIn(Line('*', Decimal(n)) + tail) == Threw(tail)
  {
    hide ReplyIn, Line, Decimal, ScanInt, ElemsIn, BulkIn;
    DecimalClean(n);
    AppendNothing(Decimal(n));
    ScanDecimal(n, []);
    ReplyAfterLine(':', Decimal(n), tail);
    ReplyAfterLine('$', Decimal(n), tail);
    ReplyAfterLine('*', Decimal(n), tail);
  }

  function ExpectedElems(m: Option<seq<string>>, got: seq<string>, tail: string): Reading {
    match m case None => Failed case Some(es) => Read(BLANK.(elems := got + es), tail)
  }

  lemma {:induction false} ElemsRead(v: Value, k: nat, got: seq<string>, tail: string)
    requires Printable(v) && v.Array? && k <= |v.items|
    ensures ElemsIn(PrintAll(v.items[k..]) + tail, |v.items| - k, got) == ExpectedElems(MeaningAll(v.items[k..]), got, tail)
    decreases v, 0, |v.items| - k
  {
    hide ReplyIn, Printable, Print, Meaning;
    var vs := v.items[k..];
    if k == |v.items| {
      assert vs == [] && PrintAll(vs) + tail == tail;
      AppendNothing(got);
    } else {
      var rest := PrintAll(vs[1..]) + tail;
      assert vs[1..] == v.items[k + 1..];
      ItemReads(v, k, rest);
      assert PrintAll(vs) + tail == Print(vs[0]) + rest;
      var one := Meaning(vs[0]);
      if one.Some? {
        ElemsRead(v, k + 1, got + Resp.Kept(one.value), tail);
        if es :| MeaningAll(vs[1..]) == Some(es) {
          assert got + Resp.Kept(one.value) + es == got + (Resp.Kept(one.value) + es);
        }
      }
    }
  }

  lemma ItemReads(v: Value, k: nat, rest: string)
    requires Printable(v) && v.Array? && k < |v.items|
    ensures ReplyIn(Print(v.items[k]) + rest) == Expected(Meaning(v.items[k]), rest)
    decreases v, 0, 0
  {
    hide ReplyIn, Print, Meaning;
    PrintReads(v.items[k], rest);
  }

  // ------------------------------------------------------------------------- commands

  function Bulks(args: seq<string>): seq<Value> { seq(|args|, i requires 0 <= i < |args| => Bulk(args[i])) }

  lemma ArrayText(vs: seq<Value>)
    ensures Print(Array(vs)) == Line('*', Decimal(|vs|)) + PrintAll(vs)
  {
    hide Line, Decimal;
  }

  /** `encode_array`. */
  method EncodeArray(args: seq<string>) returns (text: string)
    ensures text == Print(Array(Bulks(args)))
  {
    hide Line, Print, Decimal, PrintAll;
    var vs := Bulks(args);
    ghost var header := Line('*', Decimal(|args|));
    text := "*" + Decimal(|args|) + CRLF;
    StarLine(Decimal(|args|));
    EmptyArray(header);
    for i := 0 to |args|
      invariant text == header + PrintAll(vs[..i])
    {
      assert vs[..i + 1] == vs[..i] + [vs[i]];
      PrintSnoc(vs[..i], vs[i]);
      BulkText(args[i]);
      Associate(header, PrintAll(vs[..i]), Print(vs[i]));
      text := text + ("$" + Decimal(|args[i]|) + CRLF + args[i] + CRLF);
    }
    assert vs[..|args|] == vs;
    ArrayText(vs);
  }

  lemma EmptyArray(header: string)
    ensures header + PrintAll([]) == header
  {
  }

  lemma Associate(a: string, b: string, c: string)
    ensures a + b + c == a + (b + c)
  {
  }

  lemma StarLine(s: string)
    ensures "*" + s + CRLF == Line('*', s)
  {
  }

  lemma BulkText(s: string)
    ensures "$" + Decimal(|s|) + CRLF + s + CRLF == Print(Bulk(s))
  {
    hide Decimal;
    assert "$" + Decimal(|s|) + CRLF == Line('$', Decimal(|s|));
  }

  lemma {:induction false} PrintSnoc(vs: seq<Value>, v: Value)
    ensures PrintAll(vs + [v]) == PrintAll(vs) + Print(v)
  {
    hide Print;
    if vs == [] {
      assert vs + [v] == [v] && [v][1..] == [];
    } else {
      assert (vs + [v])[1..] == vs[1..] + [v];
      PrintSnoc(vs[1..], v);
    }
  }

  function NonEmpty(args: seq<string>): seq<string> {
    if args == [] then [] else (if args[0] == "" then [] else [args[0]]) + NonEmpty(args[1..])
  }

  lemma {:induction false} BulksMean(args: seq<string>)
    ensures MeaningAll(Bulks(args)) == Some(NonEmpty(args))
  {
    if args != [] {
      BulksMean(args[1..]);
      assert Bulks(args)[1..] == Bulks(args[1..]);
    }
  }

  /** Reading an encoded command gives its arguments without the empty ones, and leaves
      exactly what follows; the arguments may hold any bytes. */
  lemma RoundTrip(args: seq<string>, tail: string)
    requires |args| <= INT_MAX && forall i :: 0 <= i < |args| ==> |args[i]| <= INT_MAX
    ensures ReplyIn(Print(Array(Bulks(args))) + tail) == Read(Reply(false, false, 0, "", NonEmpty(args)), tail)
  {
    hide ReplyIn, Print;
    var v := Array(Bulks(args));
    BulksMean(args);
    PrintReads(v, tail);
  }

  // -------------------------------------------------------------------- more input later

  /** The same reading with more input behind it. */
  function Longer(r: Reading, t: string): Reading {
    match r case Read(reply, rest) => Read(reply, rest + t) case Failed => Failed case Threw(rest) => Threw(rest + t)
  }

  lemma SplitAt(s: string, n: nat)
    requires n + 2 <= |s|
    ensures s == s[..n] + ([s[n], s[n + 1]] + s[n + 2..])
  {
  }

  lemma LineShape(s: string)
    requires LineIn(s).Some?
    ensures var (line, rest) := LineIn(s).value; '\r' !in line && |line| <= LINE_LIMIT && s == line + (CRLF + rest)
  {
    hide Find;
    SplitAt(s, Find(s, '\r'));
  }

  lemma LineLonger(s: string, t: string)
    requires LineIn(s).Some?
    ensures var (line, rest) := LineIn(s).value; LineIn(s + t) == Some((line, rest + t))
  {
    hide LineIn;
    LineShape(s);
    var (line, rest) := LineIn(s).value;
    LineFrom(line, CRLF + (rest + t));
    assert s + t == line + (CRLF + (rest + t));
    assert (CRLF + (rest + t))[2..] == rest + t;
  }

  lemma BulkLonger(s: string, len: int, t: string)
    requires BulkIn(s, len) != Failed
    ensures BulkIn(s + t, len) == Longer(BulkIn(s, len), t)
  {
    if len >= 0 {
      var u := s + t;
      assert u[..len] == s[..len] && u[len..len + 2] == s[len..len + 2] && u[len + 2..] == s[len + 2..] + t;
    }
  }

  /** The parser once the first line is known. */
  lemma ReplyFromLine(s: string)
    requires LineIn(s).Some? && LineIn(s).value.0 != ""
    ensures var (line, rest) := LineIn(s).value; ReplyIn(s) == ReplyOf(line[0], line[1..], rest)
  {
    hide LineIn, ElemsIn, BulkIn, StoI, StoLL;
  }

  lemma ReplyNeedsLine(s: string)
    requires ReplyIn(s) != Failed
    ensures LineIn(s).Some? && LineIn(s).value.0 != "" && |LineIn(s).value.1| < |s|
  {
  }

  lemma ElemsLongerWhen(kind: char, text: string, rest: string, t: string)
    requires ReplyOf(kind, text, rest) != Failed
    requires kind == '*' && StoI(text).Some? && StoI(text).value >= 0 ==>
               ElemsIn(rest + t, StoI(text).value, []) == Longer(ElemsIn(rest, StoI(text).value, []), t)
    ensures ReplyOf(kind, text, rest + t) == Longer(ReplyOf(kind, text, rest), t)
  {
    hide ElemsIn, BulkIn, StoI, StoLL;
    if kind == '$' && StoI(text).Some? {
      BulkLonger(rest, StoI(text).value, t);
    }
  }

  /** A reading that does not fail is decided: more input changes nothing but what is left. */
  lemma {:induction false} Decided(s: string, t: string)
    requires ReplyIn(s) != Failed
    ensures ReplyIn(s + t) == Longer(ReplyIn(s), t)
    decreases |s|, 0
  {
    hide ReplyIn, ElemsIn, LineIn, StoI, StoLL, BulkIn;
    ReplyNeedsLine(s);
    var (line, rest) := LineIn(s).value;
    LineLonger(s, t);
    ReplyFromLine(s);
    ReplyFromLine(s + t);
    if line[0] == '*' && StoI(line[1..]).Some? && StoI(line[1..]).value >= 0 {
      ElemsDecided(rest, StoI(line[1..]).value, [], t);
    }
    ElemsLongerWhen(line[0], line[1..], rest, t);
  }

  lemma {:induction false} ElemsDecided(s: string, n: nat, got: seq<string>, t: string)
    requires ElemsIn(s, n, got) != Failed
    ensures ElemsIn(s + t, n, got) == Longer(ElemsIn(s, n, got), t)
    decreases |s|, 1
  {
    hide ReplyIn;
    if n > 0 {
      Decided(s, t);
      if ReplyIn(s).Read? {
        ElemsDecided(ReplyIn(s).rest, n - 1, got + Resp.Kept(ReplyIn(s).reply), t);
      }
    }
  }

  /** A reply that is read whole: what a peer sends for one command. */
  predicate Whole(text: string) { ReplyIn(text).Read? && ReplyIn(text).rest == "" }

  /** A peer that closes in the middle of such a reply is always noticed. */
  lemma CutReplyFails(text: string, k: nat)
    requires Whole(text) && k < |text|
    ensures ReplyIn(text[..k]) == Failed
  {
    hide ReplyIn;
    var cut := text[..k];
    assert cut + text[k..] == text;
    if ReplyIn(cut) != Failed {
      Decided(cut, text[k..]);
    }
  }

  lemma PrintedIsWhole(v: Value)
    requires Printable(v)
    ensures Whole(Print(v)) <==> Meaning(v).Some?
    ensures Meaning(v).None? ==> ReplyIn(Print(v)) == Failed
  {
    hide ReplyIn, Print, Meaning;
    PrintReads(v, "");
    AppendNothing(Print(v));
  }
}
