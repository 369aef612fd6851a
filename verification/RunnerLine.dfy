/** One line of the protocol between the in-container runner and the host, in
    nl-judge/src/sandbox.cpp: `emit` prints it, `parse_runner_line` reads it with `sscanf`. */
module RunnerLine {
  import opened Wrappers
  import opened Text

  /** What the runner prints about one test case. */
  datatype Report = Report(index: int, verdict: string, time: int, mem: int)

  // ------------------------------------------------------------------- printing

  function Head(r: Report): string {
    "case " + Decimal(r.index) + " verdict " + r.verdict + " time_ms " + Decimal(r.time) + " mem_kb "
  }

  function LineOf(r: Report): string { Head(r) + Decimal(r.mem) }

  function LinesOf(rs: seq<Report>): seq<string> {
    seq(|rs|, i requires 0 <= i < |rs| => LineOf(rs[i]))
  }

  /** Everything `emit` writes to stdout. */
  function Printed(rs: seq<Report>): string { Unlines(LinesOf(rs)) }

  // -------------------------------------------------------------------- scanning

  /** A literal of the `sscanf` format. */
  function Lit(s: string, w: string): Option<string> {
    if w <= s then Some(s[|w|..]) else None
  }

  function WordRun(s: string, width: nat): (n: nat)
    ensures n <= |s| && n <= width
    ensures forall i :: 0 <= i < n ==> !IsSpace(s[i])
    ensures n < |s| && n < width ==> IsSpace(s[n])
  {
    if s == [] || width == 0 || IsSpace(s[0]) then 0 else 1 + WordRun(s[1..], width - 1)
  }

  /** `%15s`. */
  function ScanWord(s: string): Option<(string, string)> {
    var t := SkipSpace(s);
    var n := WordRun(t, 15);
    if n == 0 then None else Some((t[..n], t[n..]))
  }

  /** The format "case %d verdict %15s time_ms %d mem_kb %d", from its last items back;
      a space in it matches any white space. */
  function ScanMem(s: string, r: Report): Option<Report> {
    var s1 :- Lit(SkipSpace(s), "mem_kb");
    var (m, _) :- ScanInt(s1);
    Some(r.(mem := m))
  }

  function ScanTime(s: string, r: Report): Option<Report> {
    var s1 :- Lit(SkipSpace(s), "time_ms");
    var (t, s2) :- ScanInt(s1);
    ScanMem(s2, r.(time := t))
  }

  function ScanVerdict(s: string, r: Report): Option<Report> {
    var s1 :- Lit(SkipSpace(s), "verdict");
    var (v, s2) :- ScanWord(s1);
    ScanTime(s2, r.(verdict := v))
  }

  function ScanReport(s: string): Option<Report> {
    var s1 :- Lit(s, "case");
    var (k, s2) :- ScanInt(s1);
    ScanVerdict(s2, Report(k, "", -1, -1))
  }

  /** `line.c_str()`: the scan stops at the first NUL. */
  function CStr(s: string): string { s[..Find(s, '\0')] }

  function ParseRunnerLine(line: string): Option<Report> {
    var r :- ScanReport(CStr(line));
    if r.index <= 0 then None else Some(r)
  }

  // --------------------------------------------------------------- scanning a cut line

  predicate IsToken(w: string) {
    0 < |w| <= 15 && forall i :: 0 <= i < |w| ==> !IsSpace(w[i]) && w[i] != '\0'
  }

  /** Reports `emit` is called with: the index counts from 1, the verdict is one word. */
  predicate Printable(r: Report) { r.index > 0 && IsToken(r.verdict) }

  lemma SkipOneSpace(s: string)
    requires s != [] && !IsSpace(s[0])
    ensures SkipSpace([' '] + s) == s
  {
    assert ([' '] + s)[1..] == s;
  }

  /** `p` is a cut of a text that begins with a space and the literal `w`. */
  lemma CutBeyond(w: string, rest: string, p: string)
    requires p <= [' '] + w + rest && |p| > |w|
    ensures p == [' '] + (w + p[|w| + 1..]) && p[|w| + 1..] <= rest
    ensures (w + p[|w| + 1..])[|w|..] == p[|w| + 1..]
  {
  }

  lemma CutWithin(w: string, rest: string, p: string)
    requires p <= [' '] + w + rest && 0 < |p| <= |w|
    ensures p == [' '] + p[1..] && p[1..] <= w
  {
  }

  /** `p` is a cut of a text that begins with a space and the literal `w`. */
  lemma LitCut(w: string, rest: string, p: string)
    requires w != [] && !IsSpace(w[0]) && p <= [' '] + w + rest
    ensures |p| <= |w| ==> Lit(SkipSpace(p), w) == None
    ensures |p| > |w| ==> Lit(SkipSpace(p), w) == Some(p[|w| + 1..]) && p[|w| + 1..] <= rest
  {
    if |p| > |w| {
      CutBeyond(w, rest, p);
      SkipOneSpace(w + p[|w| + 1..]);
    } else if p != [] {
      assert |SkipSpace(p[1..])| < |w|;
    }
  }

  lemma {:induction false} SkipSpaceDigits(s: string)
    requires AllDigits(s)
    ensures SkipSpace(s) == s && DigitRun(s) == |s|
  {
    DigitRunOf(s, []);
    assert s + [] == s;
  }

  /** A cut inside a printed number is no number, or one that reaches the end of the text. */
  lemma ScanCutNumber(n: int, d: string)
    requires d <= Decimal(n)
    ensures var r := ScanInt([' '] + d); r == None || r.value.1 == []
  {
    SpaceThenScan(d);
    if n < 0 && d != [] {
      assert d[0] == '-' && d[1..] <= Digits(-n);
      SkipSpaceDigits(d[1..]);
      assert SkipSpace(d) == d;
    } else {
      assert n >= 0 || d == [];
      SkipSpaceDigits(d);
      assert AllDigits(d);
    }
  }

  lemma IntCut(n: int, rest: string, p: string)
    requires StopsDigits(rest) && p <= [' '] + Decimal(n) + rest
    ensures |p| <= |Decimal(n)| ==> ScanInt(p) == None || ScanInt(p).value.1 == []
    ensures |p| > |Decimal(n)| ==> ScanInt(p) == Some((n, p[|Decimal(n)| + 1..])) && p[|Decimal(n)| + 1..] <= rest
  {
    var d := Decimal(n);
    if |p| > |d| {
      CutBeyond(d, rest, p);
      ScanDecimal(n, p[|d| + 1..]);
      SpaceThenScan(d + p[|d| + 1..]);
    } else if p != [] {
      CutWithin(d, rest, p);
      ScanCutNumber(n, p[1..]);
    }
  }

  lemma {:induction false} WordRunOf(w: string, tail: string, width: nat)
    requires |w| <= width && forall i :: 0 <= i < |w| ==> !IsSpace(w[i])
    requires tail == [] || IsSpace(tail[0])
    ensures WordRun(w + tail, width) == |w|
  {
    if w == [] {
      assert w + tail == tail;
    } else {
      WordRunOf(w[1..], tail, width - 1);
      assert (w + tail)[1..] == w[1..] + tail;
    }
  }

  lemma WordCut(w: string, rest: string, p: string)
    requires IsToken(w) && rest != [] && IsSpace(rest[0]) && p <= [' '] + w + rest
    ensures |p| <= |w| ==> ScanWord(p) == None || ScanWord(p).value.1 == []
    ensures |p| > |w| ==> ScanWord(p) == Some((w, p[|w| + 1..])) && p[|w| + 1..] <= rest
  {
    if |p| > |w| {
      var q := p[|w| + 1..];
      CutBeyond(w, rest, p);
      SkipOneSpace(w + q);
      WordRunOf(w, q, 15);
      assert (w + q)[..|w|] == w;
    } else if |p| > 1 {
      CutWithin(w, rest, p);
      var e := p[1..];
      SkipOneSpace(e);
      WordRunOf(e, [], 15);
      assert e + [] == e;
    } else if p != [] {
      assert p[1..] == [];
    }
  }

  // ------------------------------------------------------------- scanning whole lines

  /** The scanned line lost nothing but, possibly, the end of its last figure. */
  predicate SameButMem(a: Report, b: Report) {
    a.index == b.index && a.verdict == b.verdict && a.time == b.time
  }

  function TailMem(r: Report): string { [' '] + "mem_kb" + ([' '] + Decimal(r.mem)) }

  function TailTime(r: Report): string { [' '] + "time_ms" + ([' '] + Decimal(r.time) + TailMem(r)) }

  function TailVerdict(r: Report): string { [' '] + "verdict" + ([' '] + r.verdict + TailTime(r)) }

  /** A cut of what follows one item is scanned to `None` or to a report that agrees
      with the printed one; uncut, it gives the printed one. */
  lemma CutMem(r: Report, p: string, got: Report)
    requires p <= TailMem(r) && SameButMem(got, r)
    ensures ScanMem(p, got) == None || SameButMem(ScanMem(p, got).value, r)
    ensures p == TailMem(r) ==> ScanMem(p, got) == Some(r)
  {
    var rest := [' '] + Decimal(r.mem);
    LitCut("mem_kb", rest, p);
    if |p| > 6 {
      assert rest == [' '] + Decimal(r.mem) + [];
      IntCut(r.mem, [], p[7..]);
    }
  }

  lemma CutTime(r: Report, p: string, got: Report)
    requires p <= TailTime(r) && got.index == r.index && got.verdict == r.verdict
    ensures ScanTime(p, got) == None || SameButMem(ScanTime(p, got).value, r)
    ensures p == TailTime(r) ==> ScanTime(p, got) == Some(r)
  {
    LitCut("time_ms", [' '] + Decimal(r.time) + TailMem(r), p);
    if |p| > 7 {
      IntCut(r.time, TailMem(r), p[8..]);
      if |p[8..]| > |Decimal(r.time)| {
        CutMem(r, p[8..][|Decimal(r.time)| + 1..], got.(time := r.time));
      }
    }
  }

  lemma CutVerdict(r: Report, p: string, got: Report)
    requires Printable(r) && p <= TailVerdict(r) && got.index == r.index
    ensures ScanVerdict(p, got) == None || SameButMem(ScanVerdict(p, got).value, r)
    ensures p == TailVerdict(r) ==> ScanVerdict(p, got) == Some(r)
  {
    LitCut("verdict", [' '] + r.verdict + TailTime(r), p);
    if |p| > 7 {
      WordCut(r.verdict, TailTime(r), p[8..]);
      if |p[8..]| > |r.verdict| {
        CutTime(r, p[8..][|r.verdict| + 1..], got.(verdict := r.verdict));
      }
    }
  }

  lemma Item(head: string, word: string, value: string, rest: string)
    ensures head + ([' '] + word + [' ']) + value + rest == head + ([' '] + word + ([' '] + value + rest))
  {
  }

  lemma LineShape(r: Report)
    ensures LineOf(r) == "case" + ([' '] + Decimal(r.index) + TailVerdict(r))
  {
    hide Decimal;
    var i, t, m := Decimal(r.index), Decimal(r.time), Decimal(r.mem);
    var c := "case" + [' '] + i;
    var v := c + ([' '] + "verdict" + [' ']) + r.verdict;
    Item(v + ([' '] + "time_ms" + [' ']) + t, "mem_kb", m, "");
    Item(v, "time_ms", t, TailMem(r));
    Item(c, "verdict", r.verdict, TailTime(r));
    LineItems(r, i, t, m);
    assert c + TailVerdict(r) == "case" + ([' '] + i + TailVerdict(r));
  }

  lemma LineItems(r: Report, i: string, t: string, m: string)
    requires i == Decimal(r.index) && t == Decimal(r.time) && m == Decimal(r.mem)
    ensures LineOf(r) == "case" + [' '] + i + ([' '] + "verdict" + [' ']) + r.verdict + ([' '] + "time_ms" + [' ']) + t
                         + ([' '] + "mem_kb" + [' ']) + m + ""
    ensures TailMem(r) == [' '] + "mem_kb" + ([' '] + m + "")
  {
    hide Decimal;
    assert "case " == "case" + [' '] && " verdict " == [' '] + "verdict" + [' '];
    assert " time_ms " == [' '] + "time_ms" + [' '] && " mem_kb " == [' '] + "mem_kb" + [' '];
  }

  lemma CutReport(r: Report, p: string)
    requires Printable(r) && p <= LineOf(r)
    ensures ScanReport(p) == None || SameButMem(ScanReport(p).value, r)
    ensures p == LineOf(r) ==> ScanReport(p) == Some(r)
  {
    LineShape(r);
    if |p| >= 4 {
      var q := p[4..];
      IntCut(r.index, TailVerdict(r), q);
      if |q| > |Decimal(r.index)| {
        CutVerdict(r, q[|Decimal(r.index)| + 1..], Report(r.index, "", -1, -1));
      }
    }
  }

  lemma DecimalClean(n: int)
    ensures '\0' !in Decimal(n) && '\n' !in Decimal(n)
  {
    var d := Digits(if n < 0 then -n else n);
    assert forall c :: c in d ==> IsDigit(c);
  }

  lemma LineClean(r: Report)
    requires Printable(r)
    ensures '\0' !in LineOf(r) && '\n' !in LineOf(r)
  {
    DecimalClean(r.index);
    DecimalClean(r.time);
    DecimalClean(r.mem);
    assert forall c :: c in r.verdict ==> !IsSpace(c) && c != '\0';
  }

  lemma CStrWhole(p: string, s: string)
    requires p <= s && '\0' !in s
    ensures CStr(p) == p
  {
    assert forall i :: 0 <= i < |p| ==> p[i] == s[i] && p[i] != '\0';
    assert p[..|p|] == p;
  }

  /** `parse_runner_line` on a printed line, whole or cut. */
  lemma ParsePrinted(r: Report, p: string)
    requires Printable(r) && p <= LineOf(r)
    ensures ParseRunnerLine(p) == None || SameButMem(ParseRunnerLine(p).value, r)
    ensures p == LineOf(r) ==> ParseRunnerLine(p) == Some(r)
  {
    LineClean(r);
    CutReport(r, p);
    CStrWhole(p, LineOf(r));
  }
}
