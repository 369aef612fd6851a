/** Reading a whole runner text: `collect_runner_results` of nl-judge/src/sandbox.cpp.
    What the lines are is left to a parser of single lines; `RunnerLine` has the real one. */
module RunnerText {
  import opened Wrappers
  import opened Sequences
  import opened Text
  import opened RunnerLine

  type Parser = string -> Option<Report>

  /** How a report becomes the host's record of the case. */
  type Keep = Report -> Case

  /** One test case as the host keeps it. */
  datatype Case = Case(index: int, verdict: string, time: int, mem: int, output: string)

  const OUTPUT_CAP := 256 * 1024

  function Limited(s: string, n: nat): string { if |s| > n then s[..n] else s }

  /** `files(k)` is the content of `out_k.txt`. */
  function ReadOutput(files: int -> string): Keep {
    r => Attach(r, files)
  }

  function Attach(r: Report, files: int -> string): Case {
    Case(r.index, r.verdict, r.time, r.mem, if r.verdict == "OK" then Limited(files(r.index), OUTPUT_CAP) else "")
  }

  function Collect(lines: seq<string>, parse: Parser, count: int, seen: nat, keep: Keep): seq<Case> {
    if lines == [] then []
    else
      var r := parse(lines[0]);
      if r.None? || r.value.index != seen + 1 then Collect(lines[1..], parse, count, seen, keep)
      else if r.value.index > count then []
      else [keep(r.value)] + Collect(lines[1..], parse, count, seen + 1, keep)
  }

  lemma CollectStep(line: string, more: seq<string>, parse: Parser, count: int, seen: nat, keep: Keep)
    ensures var r := parse(line);
            Collect([line] + more, parse, count, seen, keep) ==
              if r.None? || r.value.index != seen + 1 then Collect(more, parse, count, seen, keep)
              else if r.value.index > count then []
              else [keep(r.value)] + Collect(more, parse, count, seen + 1, keep)
  {
    assert ([line] + more)[1..] == more;
  }

  /** `lines` are what the successive `std::getline` calls deliver. */
  method CollectRunnerResults(lines: seq<string>, parse: Parser, count: int, keep: Keep) returns (out: seq<Case>)
    ensures out == Collect(lines, parse, count, 0, keep)
  {
    out := [];
    var seen := 0;
    var i := 0;
    while i < |lines|
      invariant 0 <= i <= |lines| && 0 <= seen
      invariant out + Collect(lines[i..], parse, count, seen, keep) == Collect(lines, parse, count, 0, keep)
    {
      CollectStep(lines[i], lines[i + 1..], parse, count, seen, keep);
      assert [lines[i]] + lines[i + 1..] == lines[i..];
      var r := parse(lines[i]);
      i := i + 1;
      if r.Some? && r.value.index == seen + 1 {
        if r.value.index > count {
          AppendNothing(out);
          return;
        }
        MoveOne(out, keep(r.value), Collect(lines[i..], parse, count, r.value.index, keep));
        seen := r.value.index;
        out := out + [keep(r.value)];
      }
    }
    assert lines[|lines|..] == [] && out + [] == out;
  }

  /** `keep` copies the four printed fields. */
  ghost predicate Copies(keep: Keep) {
    forall r {:trigger keep(r)} :: keep(r) == Case(r.index, r.verdict, r.time, r.mem, keep(r).output)
  }

  /** Whatever the text is, the results are numbered 1, 2, ... and there are at most `count`. */
  lemma {:induction false} CollectIsNumbered(lines: seq<string>, parse: Parser, count: int, seen: nat, keep: Keep)
    requires Copies(keep)
    ensures var out := Collect(lines, parse, count, seen, keep);
            (out != [] ==> seen + |out| <= count) &&
            forall i :: 0 <= i < |out| ==> out[i].index == seen + 1 + i
  {
    if lines != [] {
      CollectIsNumbered(lines[1..], parse, count, seen, keep);
      CollectIsNumbered(lines[1..], parse, count, seen + 1, keep);
    }
  }

  // ------------------------------------------------------------- collecting whole texts

  function KeepAll(rs: seq<Report>, keep: Keep): seq<Case> {
    seq(|rs|, i requires 0 <= i < |rs| => keep(rs[i]))
  }

  /** A runner's reports: numbered from `first`, each one printable. */
  predicate Numbered(rs: seq<Report>, first: int) {
    forall i :: 0 <= i < |rs| ==> rs[i].index == first + i && Printable(rs[i])
  }

  lemma {:induction false} CollectPrinted(lines: seq<string>, rs: seq<Report>, extra: seq<string>, parse: Parser,
                                          count: int, seen: nat, keep: Keep)
    requires |lines| == |rs| && forall i :: 0 <= i < |rs| ==> parse(lines[i]) == Some(rs[i])
    requires forall i :: 0 <= i < |rs| ==> rs[i].index == seen + 1 + i
    requires rs != [] ==> seen + |rs| <= count
    ensures Collect(lines + extra, parse, count, seen, keep)
         == KeepAll(rs, keep) + Collect(extra, parse, count, seen + |rs|, keep)
  {
    if rs == [] {
      assert lines + extra == extra;
    } else {
      var more := lines[1..] + extra;
      assert lines + extra == [lines[0]] + more;
      CollectStep(lines[0], more, parse, count, seen, keep);
      CollectPrinted(lines[1..], rs[1..], extra, parse, count, seen + 1, keep);
      KeepCons(rs, keep, Collect(extra, parse, count, seen + |rs|, keep));
    }
  }

  lemma KeepCons(rs: seq<Report>, keep: Keep, more: seq<Case>)
    requires rs != []
    ensures KeepAll(rs, keep) + more == [keep(rs[0])] + (KeepAll(rs[1..], keep) + more)
  {
    assert KeepAll(rs, keep) == [keep(rs[0])] + KeepAll(rs[1..], keep);
  }

  lemma LinesOfClean(rs: seq<Report>, first: int)
    requires Numbered(rs, first)
    ensures Newlinefree(LinesOf(rs))
  {
    forall i | 0 <= i < |rs| ensures '\n' !in LinesOf(rs)[i] {
      LineClean(rs[i]);
    }
  }

  lemma ReadsPrinted(rs: seq<Report>, first: int)
    requires Numbered(rs, first)
    ensures forall i :: 0 <= i < |rs| ==> ParseRunnerLine(LinesOf(rs)[i]) == Some(rs[i])
  {
    forall i | 0 <= i < |rs| ensures ParseRunnerLine(LineOf(rs[i])) == Some(rs[i]) {
      ParsePrinted(rs[i], LineOf(rs[i]));
    }
  }

  /** Printing a run and reading it back gives exactly the run. */
  lemma RunRoundTrip(rs: seq<Report>, count: int, keep: Keep)
    requires Numbered(rs, 1) && |rs| <= count
    ensures Collect(Lines(Printed(rs)), ParseRunnerLine, count, 0, keep) == KeepAll(rs, keep)
  {
    var lines := LinesOf(rs);
    LinesOfClean(rs, 1);
    LinesOfUnlines(lines, []);
    assert Printed(rs) + [] == Printed(rs) && lines + [] == lines;
    ReadsPrinted(rs, 1);
    CollectPrinted(lines, rs, [], ParseRunnerLine, count, 0, keep);
  }

  lemma {:induction false} CutUnlines(ls: seq<string>, p: string) returns (j: nat, cut: string)
    requires p <= Unlines(ls)
    ensures j <= |ls| && p == Unlines(ls[..j]) + cut
    ensures if j < |ls| then cut <= ls[j] else cut == []
  {
    if ls == [] {
      j, cut := 0, [];
    } else if |p| <= |ls[0]| {
      j, cut := 0, p;
    } else {
      var q := p[|ls[0]| + 1..];
      CutHead(ls[0], Unlines(ls[1..]), p);
      j, cut := CutUnlines(ls[1..], q);
      assert ls[..j + 1][1..] == ls[1..][..j];
      UnlinesAppend(ls[..j + 1], cut);
      j := j + 1;
    }
  }

  lemma CutHead(head: string, rest: string, p: string)
    requires p <= head + "\n" + rest && |p| > |head|
    ensures p[|head| + 1..] <= rest && p == head + "\n" + p[|head| + 1..]
  {
  }

  lemma CollectOne(cut: string, parse: Parser, count: int, seen: nat, keep: Keep)
    ensures var out := Collect([cut], parse, count, seen, keep);
            out == [] || (parse(cut).Some? && out == [keep(parse(cut).value)])
  {
    CollectStep(cut, [], parse, count, seen, keep);
    assert [cut] + [] == [cut];
  }

  lemma CutLines(rs: seq<Report>, first: int, p: string) returns (j: nat, extra: seq<string>)
    requires Numbered(rs, first) && p <= Printed(rs)
    ensures j <= |rs| && Lines(p) == LinesOf(rs[..j]) + extra
    ensures extra == [] || (j < |rs| && |extra| == 1 && extra[0] <= LineOf(rs[j]))
  {
    var ls := LinesOf(rs);
    var cut;
    j, cut := CutUnlines(ls, p);
    extra := if cut == [] then [] else [cut];
    LinesOfClean(rs, first);
    assert LinesOf(rs[..j]) == ls[..j];
    assert forall i :: 0 <= i < |cut| ==> cut[i] == ls[j][i];
    LinesOfUnlines(ls[..j], cut);
  }

  /** A text cut anywhere (the host reads at most 1 MB of it, and a killed runner stops
      in the middle) yields a prefix of the true results; the one figure that can be
      wrong is the memory of the very last of them. */
  lemma TruncatedRun(rs: seq<Report>, p: string, count: int, keep: Keep)
    requires Copies(keep) && Numbered(rs, 1) && |rs| <= count && p <= Printed(rs)
    ensures var out := Collect(Lines(p), ParseRunnerLine, count, 0, keep);
            |out| <= |rs| &&
            (forall i :: 0 <= i < |out| ==> out[i] == keep(rs[i].(mem := out[i].mem))) &&
            (forall i :: 0 <= i < |out| - 1 ==> out[i] == keep(rs[i]))
  {
    var j, extra := CutLines(rs, 1, p);
    ReadsPrinted(rs[..j], 1);
    CollectPrinted(LinesOf(rs[..j]), rs[..j], extra, ParseRunnerLine, count, 0, keep);
    var last := Collect(extra, ParseRunnerLine, count, j, keep);
    if extra != [] {
      ParsePrinted(rs[j], extra[0]);
      assert extra == [extra[0]];
      CollectOne(extra[0], ParseRunnerLine, count, j, keep);
    }
    assert last == [] || (j < |rs| && |last| == 1 && last[0] == keep(rs[j].(mem := last[0].mem)));
    PrefixThenLast(rs, j, last, keep);
  }

  lemma PrefixThenLast(rs: seq<Report>, j: nat, last: seq<Case>, keep: Keep)
    requires Copies(keep) && j <= |rs|
    requires last == [] || (j < |rs| && |last| == 1 && last[0] == keep(rs[j].(mem := last[0].mem)))
    ensures var out := KeepAll(rs[..j], keep) + last;
            |out| <= |rs| &&
            (forall i :: 0 <= i < |out| ==> out[i] == keep(rs[i].(mem := out[i].mem))) &&
            (forall i :: 0 <= i < |out| - 1 ==> out[i] == keep(rs[i]))
  {
    var out := KeepAll(rs[..j], keep) + last;
    forall i | 0 <= i < |out|
      ensures out[i] == keep(rs[i].(mem := out[i].mem)) && (i < |out| - 1 ==> out[i] == keep(rs[i]))
    {
      if i < j {
        assert out[i] == keep(rs[i]) && rs[i].(mem := out[i].mem) == rs[i];
      }
    }
  }

  /** Lines that do not parse change nothing, wherever they stand. */
  lemma {:induction false} NoiseIgnored(a: seq<string>, noise: string, b: seq<string>, parse: Parser, count: int,
                                        seen: nat, keep: Keep)
    requires parse(noise) == None
    ensures Collect(a + [noise] + b, parse, count, seen, keep) == Collect(a + b, parse, count, seen, keep)
  {
    if a == [] {
      CollectStep(noise, b, parse, count, seen, keep);
      assert a + [noise] + b == [noise] + b && a + b == b;
    } else {
      assert a + [noise] + b == [a[0]] + (a[1..] + [noise] + b) && a + b == [a[0]] + (a[1..] + b);
      CollectStep(a[0], a[1..] + [noise] + b, parse, count, seen, keep);
      CollectStep(a[0], a[1..] + b, parse, count, seen, keep);
      NoiseIgnored(a[1..], noise, b, parse, count, seen, keep);
      NoiseIgnored(a[1..], noise, b, parse, count, seen + 1, keep);
    }
  }
}
