/** The text primitives the C++ code takes from its library: decimal printing
    (`std::to_string`, `%d`), decimal scanning (`std::stoi`, the `%d` of `sscanf`), line
    splitting (`std::getline`) and first-occurrence search (`std::string::find`). */
module Text {
  import opened Wrappers

  // ---------------------------------------------------------------- decimal numbers

  predicate IsDigit(c: char) { '0' <= c <= '9' }

  /** `isspace` in the "C" locale. */
  predicate IsSpace(c: char) { c == ' ' || '\t' <= c <= '\r' }

  predicate AllDigits(s: string) { forall i :: 0 <= i < |s| ==> IsDigit(s[i]) }

  function Digits(n: nat): (s: string)
    ensures s != [] && AllDigits(s)
  {
    var d := [(n % 10) as char + '0'];
    if n < 10 then d else Digits(n / 10) + d
  }

  function Decimal(n: int): string {
    if n < 0 then "-" + Digits(-n) else Digits(n)
  }

  function DigitsValue(s: string): nat
    requires AllDigits(s)
  {
    if s == [] then 0
    else DigitsValue(s[..|s| - 1]) * 10 + (s[|s| - 1] - '0') as nat
  }

  lemma {:induction false} DigitsRoundTrip(n: nat)
    ensures DigitsValue(Digits(n)) == n
  {
    if n >= 10 {
      DigitsRoundTrip(n / 10);
      assert Digits(n)[..|Digits(n)| - 1] == Digits(n / 10);
    }
  }

  /** Length of the longest prefix of digits. */
  function DigitRun(s: string): (n: nat)
    ensures n <= |s| && AllDigits(s[..n]) && (n < |s| ==> !IsDigit(s[n]))
  {
    if s == [] || !IsDigit(s[0]) then 0
    else
      var k := DigitRun(s[1..]);
      assert s[..k + 1] == [s[0]] + s[1..][..k];
      k + 1
  }

  function SkipSpace(s: string): (r: string)
    ensures |r| <= |s|
  {
    if s != [] && IsSpace(s[0]) then SkipSpace(s[1..]) else s
  }

  /** `strtol` in base 10: white space, an optional sign, digits; the value and what follows. */
  function ScanInt(s: string): Option<(int, string)> {
    var t := SkipSpace(s);
    var neg := t != [] && t[0] == '-';
    var u := if t != [] && (t[0] == '-' || t[0] == '+') then t[1..] else t;
    var n := DigitRun(u);
    if n == 0 then None
    else
      var v: int := DigitsValue(u[..n]);
      Some((if neg then -v else v, u[n..]))
  }

  /** `std::stoi`: no digits or out of range throws, written `None`. */
  function StoI(s: string): Option<int> {
    var (v, _) :- ScanInt(s);
    if -0x8000_0000 <= v < 0x8000_0000 then Some(v) else None
  }

  predicate StopsDigits(tail: string) { tail == [] || !IsDigit(tail[0]) }

  lemma {:induction false} DigitRunOf(d: string, tail: string)
    requires AllDigits(d) && StopsDigits(tail)
    ensures DigitRun(d + tail) == |d|
  {
    var s := d + tail;
    var n := DigitRun(s);
    assert forall i :: 0 <= i < |d| ==> s[i] == d[i];
    assert forall i :: 0 <= i < n ==> s[i] == s[..n][i];
    assert tail != [] ==> s[|d|] == tail[0];
  }

  lemma UnsignedScan(d: string, tail: string)
    requires d != [] && AllDigits(d) && StopsDigits(tail)
    ensures var u := d + tail; DigitRun(u) == |d| && u[..|d|] == d && u[|d|..] == tail
    ensures var u := d + tail; u != [] && IsDigit(u[0])
  {
    DigitRunOf(d, tail);
    var u := d + tail;
    assert u[0] == d[0];
  }

  lemma ScanUnsigned(u: string, n: nat)
    requires 0 < n == DigitRun(u) && IsDigit(u[0])
    ensures ScanInt(u) == Some((DigitsValue(u[..n]), u[n..]))
  {
    assert SkipSpace(u) == u;
  }

  lemma ScanNegative(u: string, n: nat)
    requires 0 < n == DigitRun(u)
    ensures ScanInt(['-'] + u) == Some((-(DigitsValue(u[..n]) as int), u[n..]))
  {
    var s := ['-'] + u;
    assert SkipSpace(s) == s;
    assert s[1..] == u;
  }

  lemma ScanDigits(m: nat, tail: string)
    requires StopsDigits(tail)
    ensures var d := Digits(m); var u := d + tail;
            DigitRun(u) == |d| && DigitsValue(u[..|d|]) == m && u[|d|..] == tail && ScanInt(u) == Some((m, tail))
  {
    var d := Digits(m);
    DigitsRoundTrip(m);
    UnsignedScan(d, tail);
    ScanUnsigned(d + tail, |d|);
  }

  /** Printing a number and scanning it back, whatever non-digit follows. */
  lemma ScanDecimal(n: int, tail: string)
    requires StopsDigits(tail)
    ensures ScanInt(Decimal(n) + tail) == Some((n, tail))
  {
    ScanDigits(if n < 0 then -n else n, tail);
    if n < 0 {
      var u := Digits(-n) + tail;
      ScanNegative(u, |Digits(-n)|);
      assert Decimal(n) + tail == ['-'] + u;
    }
  }

  lemma {:induction false} SpaceThenScan(s: string)
    ensures ScanInt([' '] + s) == ScanInt(s)
  {
    assert ([' '] + s)[1..] == s;
  }

  // --------------------------------------------------------------- search and lines

  /** Position of the first `c`, or the length if there is none. */
  function Find(s: string, c: char): (n: nat)
    ensures n <= |s| && c !in s[..n] && (n < |s| ==> s[n] == c)
  {
    if s == [] || s[0] == c then 0
    else
      var k := Find(s[1..], c);
      assert s[..k + 1] == [s[0]] + s[1..][..k];
      k + 1
  }

  lemma FindIs(a: string, c: char, b: string)
    requires c !in a
    ensures Find(a + [c] + b, c) == |a|
    ensures Find(a, c) == |a|
  {
    var s := a + [c] + b;
    var n := Find(s, c);
    assert forall i :: 0 <= i < |a| ==> s[i] == a[i] && a[i] in a;
    assert forall i :: 0 <= i < n ==> s[i] == s[..n][i];
    assert s[|a|] == c;
  }

  /** What precedes and what follows the first `c`. */
  function Cut(s: string, c: char): Option<(string, string)> {
    var n := Find(s, c);
    if n == |s| then None else Some((s[..n], s[n + 1..]))
  }

  lemma CutIs(a: string, c: char, b: string)
    requires c !in a
    ensures Cut(a + [c] + b, c) == Some((a, b))
  {
    FindIs(a, c, b);
    var s := a + [c] + b;
    assert s[..|a|] == a && s[|a| + 1..] == b;
  }

  lemma CutGives(s: string, c: char)
    requires Cut(s, c).Some?
    ensures var (a, b) := Cut(s, c).value; c !in a && s == a + [c] + b
  {
    var n := Find(s, c);
    assert s == s[..n] + [s[n]] + s[n + 1..];
  }

  lemma FindPresent(s: string, c: char)
    requires c in s
    ensures Find(s, c) < |s|
  {
    assert s[..|s|] == s;
  }

  /** The strings successive `std::getline` calls deliver. */
  function Lines(s: string): seq<string>
    decreases |s|
  {
    if s == [] then []
    else
      var n := Find(s, '\n');
      [s[..n]] + Lines(if n < |s| then s[n + 1..] else [])
  }

  lemma LinesStep(s: string, n: nat, rest: string)
    requires s != [] && n == Find(s, '\n')
    requires rest == if n < |s| then s[n + 1..] else []
    ensures Lines(s) == [s[..n]] + Lines(rest)
  {
  }

  lemma LinesCons(line: string, rest: string)
    requires '\n' !in line
    ensures Lines(line + "\n" + rest) == [line] + Lines(rest)
    ensures line != [] ==> Lines(line) == [line]
  {
    var s, n := line + "\n" + rest, |line|;
    FindIs(line, '\n', rest);
    assert s[..n] == line && s[n + 1..] == rest;
    LinesStep(s, n, rest);
    if line != [] {
      LinesStep(line, n, []);
      assert line[..n] == line;
    }
  }

  predicate Newlinefree(ls: seq<string>) { forall i :: 0 <= i < |ls| ==> '\n' !in ls[i] }

  /** Lines joined back, each one terminated. */
  function Unlines(ls: seq<string>): string {
    if ls == [] then "" else ls[0] + "\n" + Unlines(ls[1..])
  }

  lemma {:induction false} UnlinesSnoc(ls: seq<string>, last: string)
    ensures Unlines(ls + [last]) == Unlines(ls) + last + "\n"
  {
    if ls == [] {
      assert ls + [last] == [last] && [last][1..] == [];
    } else {
      UnlinesSnoc(ls[1..], last);
      assert (ls + [last])[1..] == ls[1..] + [last];
    }
  }

  lemma UnlinesAppend(ls: seq<string>, last: string)
    requires ls != []
    ensures Unlines(ls) + last == ls[0] + "\n" + (Unlines(ls[1..]) + last)
  {
  }

  lemma {:induction false} LinesOfUnlines(ls: seq<string>, last: string)
    requires Newlinefree(ls) && '\n' !in last
    ensures Lines(Unlines(ls) + last) == ls + (if last == [] then [] else [last])
  {
    if ls == [] {
      LinesCons(last, []);
      assert Unlines(ls) + last == last;
    } else {
      LinesOfUnlines(ls[1..], last);
      LinesCons(ls[0], Unlines(ls[1..]) + last);
      UnlinesAppend(ls, last);
    }
  }

  lemma {:induction false} LinesNewlinefree(s: string)
    ensures Newlinefree(Lines(s))
    decreases |s|
  {
    if s != [] && Find(s, '\n') < |s| {
      LinesNewlinefree(s[Find(s, '\n') + 1..]);
    }
  }
}
