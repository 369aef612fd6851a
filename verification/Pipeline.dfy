/** The judging pipeline end to end: the runner's main loop and `DockerJudgeSandbox::judge`
    of nl-judge/src/sandbox.cpp, up to the verdict that `run_judge_task` writes. */
module Pipeline {
  import opened Wrappers
  import opened Sequences
  import opened Text
  import opened RunnerLine
  import opened RunnerText
  import opened Verdict

  /** What running case `k` would report. */
  type Attempts = int -> Report

  function RunFrom(attempt: Attempts, k: int, n: int): seq<Report>
    decreases n - k
  {
    if k > n then []
    else
      var r := attempt(k).(index := k);
      [r] + if r.verdict == "OK" then RunFrom(attempt, k + 1, n) else []
  }

  /** The runner's `main`: cases in order until the first that is not OK; `emitted` are
      the reports it passes to `emit`. */
  method RunnerMain(attempt: Attempts, n: int) returns (emitted: seq<Report>)
    ensures emitted == RunFrom(attempt, 1, n)
  {
    emitted := [];
    var k := 1;
    while k <= n
      invariant emitted + RunFrom(attempt, k, n) == RunFrom(attempt, 1, n)
      decreases n - k
    {
      var r := attempt(k).(index := k);
      RunStep(attempt, k, n, emitted);
      emitted := emitted + [r];
      if r.verdict != "OK" {
        return;
      }
      k := k + 1;
    }
    assert RunFrom(attempt, k, n) == [] && emitted + [] == emitted;
  }

  lemma RunStep(attempt: Attempts, k: int, n: int, done: seq<Report>)
    requires k <= n
    ensures var r := attempt(k).(index := k);
            done + RunFrom(attempt, k, n) ==
              done + [r] + (if r.verdict == "OK" then RunFrom(attempt, k + 1, n) else []) &&
            done + [r] + [] == done + [r]
  {
    var r := attempt(k).(index := k);
    var tail := if r.verdict == "OK" then RunFrom(attempt, k + 1, n) else [];
    assert RunFrom(attempt, k, n) == [r] + tail;
    MoveOne(done, r, tail);
    AppendNothing(done + [r]);
  }

  lemma {:induction false} RunShape(attempt: Attempts, k: int, n: int)
    requires k <= n
    ensures var rs := RunFrom(attempt, k, n);
            1 <= |rs| <= n - k + 1 &&
            (forall i :: 0 <= i < |rs| ==> rs[i] == attempt(k + i).(index := k + i)) &&
            (forall i :: 0 <= i < |rs| - 1 ==> rs[i].verdict == "OK") &&
            (|rs| < n - k + 1 ==> rs[|rs| - 1].verdict != "OK")
    decreases n - k
  {
    var r := attempt(k).(index := k);
    if r.verdict == "OK" && k < n {
      var rest := RunFrom(attempt, k + 1, n);
      RunShape(attempt, k + 1, n);
      RunShapeCons(attempt, k, n, r, rest);
    } else {
      assert RunFrom(attempt, n + 1, n) == [] && [r] + [] == [r];
    }
  }

  lemma RunShapeCons(attempt: Attempts, k: int, n: int, r: Report, rest: seq<Report>)
    requires r == attempt(k).(index := k) && r.verdict == "OK" && 1 <= |rest| <= n - k
    requires forall i :: 0 <= i < |rest| ==> rest[i] == attempt(k + 1 + i).(index := k + 1 + i)
    requires forall i :: 0 <= i < |rest| - 1 ==> rest[i].verdict == "OK"
    requires |rest| < n - k ==> rest[|rest| - 1].verdict != "OK"
    ensures var rs := [r] + rest;
            (forall i :: 0 <= i < |rs| ==> rs[i] == attempt(k + i).(index := k + i)) &&
            (forall i :: 0 <= i < |rs| - 1 ==> rs[i].verdict == "OK") &&
            (|rs| < n - k + 1 ==> rs[|rs| - 1].verdict != "OK")
  {
    var rs := [r] + rest;
    forall i | 0 <= i < |rs| ensures rs[i] == attempt(k + i).(index := k + i) {
      if i > 0 {
        assert rs[i] == rest[i - 1];
      }
    }
  }

  // ------------------------------------------------------------------------ the sandbox

  /** How a command ended, with what it wrote to stderr. */
  datatype Command = TimedOut(stderr: string) | Exit(code: int, stderr: string)

  /** Everything the sandbox learns from outside: how its commands end, what the runner
      wrote, the cases' output files, and the checker's exit codes (none: timed out). */
  datatype World = World(compile: Command, run: Command, text: string, files: int -> string,
                         spjCompile: Command, spjExit: int -> Option<int>)

  const TEXT_CAP := 1024 * 1024
  const ERROR_CAP := 4096

  function OrElse(s: string, fallback: string): string { if s == "" then fallback else s }

  predicate Succeeded(c: Command) { c.Exit? && c.code == 0 }

  /** `run_host_spj`. */
  function HostSpj(w: World, cases: seq<Case>): SandboxResult {
    if !Succeeded(w.spjCompile) then
      SandboxResult("SYSTEM_ERROR", OrElse(Limited(w.spjCompile.stderr, ERROR_CAP), "spj compile failed"), [])
    else if !CheckerAnswers(cases, w.spjExit) then SandboxResult("SYSTEM_ERROR", "spj timeout", [])
    else SandboxResult("OK", "", CheckedAll(cases, w.spjExit))
  }

  /** `judge`, from the compilation on. */
  function DockerJudge(w: World, spj: bool, count: int, timeLimit: int): SandboxResult {
    if w.compile.TimedOut? then SandboxResult("SYSTEM_ERROR", "compile timeout", [])
    else if w.compile.code != 0 then SandboxResult("CE", Limited(w.compile.stderr, ERROR_CAP), [])
    else if w.run.TimedOut? then SandboxResult("SYSTEM_ERROR", "run timeout", [])
    else
      var got := Collected(w, count);
      if got == [] && w.run.code != 137 then
        SandboxResult("SYSTEM_ERROR", OrElse(Limited(w.run.stderr, ERROR_CAP), "sandbox run failed"), [])
      else
        var cases := if got == [] then [Case(1, "MLE", timeLimit, -1, "")] else got;
        if spj then HostSpj(w, cases) else SandboxResult("OK", "", cases)
  }

  function Collected(w: World, count: int): seq<Case> {
    Collect(TextLines(w), ParseRunnerLine, count, 0, ReadOutput(w.files))
  }

  function TextLines(w: World): seq<string> { Lines(Limited(w.text, TEXT_CAP)) }

  /** The checker judges STANDARD problems in SPJ mode. */
  predicate BySpj(problemType: string, judgeMode: string) { problemType in {"", "STANDARD"} && judgeMode == "SPJ" }

  /** `read_file_limited`. */
  method ReadLimited(file: string, limit: nat) returns (text: string)
    ensures text == Limited(file, limit)
  {
    text := file;
    if |text| > limit {
      text := text[..limit];
    }
  }

  /** `run_host_spj` on the cases in place, with the error text if it gives up. */
  method RunHostSpj(w: World, cases: array<Case>) returns (ok: bool, error: string)
    modifies cases
    ensures ok <==> HostSpj(w, old(cases[..])).status == "OK"
    ensures ok ==> HostSpj(w, old(cases[..])) == SandboxResult("OK", "", cases[..])
    ensures !ok ==> HostSpj(w, old(cases[..])) == SandboxResult("SYSTEM_ERROR", error, [])
  {
    hide Limited;
    if w.spjCompile.TimedOut? || w.spjCompile.code != 0 {
      error := ReadLimited(w.spjCompile.stderr, 4096);
      if error == "" {
        error := "spj compile failed";
      }
      return false, error;
    }
    ok := ApplySpj(cases, w.spjExit);
    error := if ok then "" else "spj timeout";
  }

  /** `judge` as it stands, for `count` test cases. */
  method JudgeInDocker(w: World, problemType: string, judgeMode: string, count: int, timeLimit: int)
      returns (out: SandboxResult)
    ensures out == DockerJudge(w, BySpj(problemType, judgeMode), count, timeLimit)
  {
    hide Limited, Lines, ParseRunnerLine, ReadOutput, Collect, HostSpj;
    out := SandboxResult("SYSTEM_ERROR", "sandbox run failed", []);
    if w.compile.TimedOut? {
      return out.(error := "compile timeout");
    }
    if w.compile.code != 0 {
      var text := ReadLimited(w.compile.stderr, 4096);
      return out.(status := "CE", error := text);
    }
    if w.run.TimedOut? {
      return out.(error := "run timeout");
    }
    var text := ReadLimited(w.text, 1024 * 1024);
    var cases := CollectRunnerResults(Lines(text), ParseRunnerLine, count, ReadOutput(w.files));
    if cases == [] {
      if w.run.code == 137 {
        cases := [Case(1, "MLE", timeLimit, -1, "")];
      } else {
        var stderr := ReadLimited(w.run.stderr, 4096);
        return if stderr == "" then out else out.(error := stderr);
      }
    }
    if (problemType == "" || problemType == "STANDARD") && judgeMode == "SPJ" {
      var checked := new Case[|cases|](i requires 0 <= i < |cases| => cases[i]);
      assert checked[..] == cases;
      var ok, error := RunHostSpj(w, checked);
      return if ok then SandboxResult("OK", "", checked[..]) else out.(error := error);
    }
    return SandboxResult("OK", "", cases);
  }

  /** For arbitrary runner output the fold gets cases 1, 2, ... with no gap and none too
      many, so its guard against surplus cases never fires. */
  lemma SandboxIsWellNumbered(w: World, spj: bool, key: Key, timeLimit: int)
    requires key.expected != []
    ensures var r := DockerJudge(w, spj, |key.expected|, timeLimit);
            WellNumbered(r.cases, key) && (r.status == "OK" ==> r.cases != [])
  {
    CollectIsNumbered(TextLines(w), ParseRunnerLine, |key.expected|, 0, ReadOutput(w.files));
  }

  // ------------------------------------------------------ what each way to end comes to

  /** No line of the text tells about case 1. */
  predicate NoFirstCase(lines: seq<string>) {
    forall i :: 0 <= i < |lines| ==> ParseRunnerLine(lines[i]).None? || ParseRunnerLine(lines[i]).value.index != 1
  }

  lemma {:induction false} CollectsNothing(lines: seq<string>, count: int, keep: Keep)
    requires count >= 1
    ensures Collect(lines, ParseRunnerLine, count, 0, keep) == [] <==> NoFirstCase(lines)
  {
    hide ParseRunnerLine;
    if lines != [] {
      CollectsNothing(lines[1..], count, keep);
      var first := ParseRunnerLine(lines[0]);
      assert first.None? || first.value.index != 1 ==>
        (NoFirstCase(lines) <==> NoFirstCase(lines[1..])) by {
        assert forall i :: 0 < i < |lines| ==> lines[i] == lines[1..][i - 1];
      }
    }
  }

  lemma OneBadCase(c: Case, key: Key)
    requires c.verdict == "MLE"
    ensures Judge(SandboxResult("OK", "", [c]), key) == Write("MLE", c.time, c.mem, OnCase("MLE", c.index))
  {
  }

  /** No sandbox result but its own CE is written with a message under the status CE. */
  lemma FoldWritesNoMessage(cases: seq<Case>, key: Key)
    ensures Fold(cases, key).NoWrite? || !Fold(cases, key).info.Message?
  {
  }

  /** What ends up in the row when a stage does not run through.  The compiler's text is
      written exactly for a compilation that ends with an error. */
  lemma StageFailures(w: World, spj: bool, key: Key, timeLimit: int)
    requires key.expected != []
    ensures var o := Judge(DockerJudge(w, spj, |key.expected|, timeLimit), key);
            (o.Write? && o.status == "CE" && o.info.Message?) <==> (w.compile.Exit? && w.compile.code != 0)
    ensures var o := Judge(DockerJudge(w, spj, |key.expected|, timeLimit), key);
            var none := NoFirstCase(TextLines(w));
            match w.compile
            case TimedOut(_) => o == Write("SYSTEM_ERROR", -1, -1, Message("compile timeout"))
            case Exit(code, stderr) =>
              if code != 0 then o == Write("CE", -1, -1, Message(if |stderr| > 4096 then stderr[..4096] else stderr))
              else match w.run
                   case TimedOut(_) => o == Write("SYSTEM_ERROR", -1, -1, Message("run timeout"))
                   case Exit(137, _) => none && !spj ==> o == Write("MLE", timeLimit, -1, OnCase("MLE", 1))
                   case Exit(_, "") => none ==> o == Write("SYSTEM_ERROR", -1, -1, Message("sandbox run failed"))
                   case Exit(_, said) =>
                     none ==> o == Write("SYSTEM_ERROR", -1, -1, Message(if |said| > 4096 then said[..4096] else said))
  {
    hide ParseRunnerLine, Fold;
    CollectsNothing(TextLines(w), |key.expected|, ReadOutput(w.files));
    hide Collected, TextLines, CheckedAll, CheckerAnswers;
    OneBadCase(Case(1, "MLE", timeLimit, -1, ""), key);
    FoldWritesNoMessage(DockerJudge(w, spj, |key.expected|, timeLimit).cases, key);
  }

  /** And when the checker is asked: it must compile, and answer for every case that the
      runner is content with. */
  lemma CheckerFailures(w: World, key: Key, timeLimit: int)
    requires key.expected != [] && Succeeded(w.compile) && w.run.Exit?
    ensures var o := Judge(DockerJudge(w, true, |key.expected|, timeLimit), key);
            var got := Collected(w, |key.expected|);
            got != [] || w.run.code == 137 ==>
              match w.spjCompile
              case Exit(0, _) =>
                (got == [] ==> o == Write("MLE", timeLimit, -1, OnCase("MLE", 1))) &&
                ((exists i :: 0 <= i < |got| && got[i].verdict == "OK" && w.spjExit(i + 1).None?) ==>
                   o == Write("SYSTEM_ERROR", -1, -1, Message("spj timeout")))
              case _ =>
                var said := w.spjCompile.stderr;
                o == Write("SYSTEM_ERROR", -1, -1,
                           Message(if said == "" then "spj compile failed" else if |said| > 4096 then said[..4096] else said))
  {
    hide Fold, ParseRunnerLine;
    CollectIsNumbered(TextLines(w), ParseRunnerLine, |key.expected|, 0, ReadOutput(w.files));
    hide Collected, TextLines;
    var mle := Case(1, "MLE", timeLimit, -1, "");
    OneBadCase(mle, key);
    assert CheckedAll([mle], w.spjExit) == [mle];
    hide CheckedAll;
  }

  // ------------------------------------------------------------------------- end to end

  /** The judgement on case `k`: the runner's, then the checker's or the comparison's. */
  function CaseVerdict(w: World, attempt: Attempts, spj: bool, key: Key, k: int): string
    requires 1 <= k <= |key.expected|
  {
    Judgement(w, attempt(k).(index := k), spj, key)
  }

  function Judgement(w: World, r: Report, spj: bool, key: Key): string
    requires 1 <= r.index <= |key.expected|
  {
    if r.verdict != "OK" then r.verdict
    else if spj && w.spjExit(r.index) != Some(0) then "WA"
    else if !key.accepts(key.expected[r.index - 1], FirstPart(w.files(r.index))) then "WA"
    else "OK"
  }

  /** The host reads at most 256 KB of an output. */
  function FirstPart(output: string): string {
    if |output| > 256 * 1024 then output[..256 * 1024] else output
  }

  /** Both stages ran through and the runner's text reached the host whole. */
  ghost predicate RanThrough(w: World, attempt: Attempts, spj: bool, n: int) {
    && Succeeded(w.compile) && w.run.Exit?
    && w.text == Printed(RunFrom(attempt, 1, n)) && |w.text| <= 1024 * 1024
    && (forall k :: 1 <= k <= n ==> attempt(k).verdict in RUNNER_VERDICTS)
    && (spj ==> Succeeded(w.spjCompile) && forall k :: 1 <= k <= n ==> w.spjExit(k).Some?)
  }

  /** Nothing else is needed for that. */
  lemma CanRunThrough(attempt: Attempts, spj: bool, n: int, files: int -> string, spjExit: int -> Option<int>)
      returns (w: World)
    requires forall k :: 1 <= k <= n ==> attempt(k).verdict in RUNNER_VERDICTS && (spj ==> spjExit(k).Some?)
    requires |Printed(RunFrom(attempt, 1, n))| <= 1024 * 1024
    ensures RanThrough(w, attempt, spj, n) && w.files == files && w.spjExit == spjExit
  {
    w := World(Exit(0, ""), Exit(0, ""), Printed(RunFrom(attempt, 1, n)), files, Exit(0, ""), spjExit);
  }

  /** The cases the fold sees. */
  function FinalCases(w: World, attempt: Attempts, spj: bool, n: int): seq<Case> {
    var cases := KeepAll(RunFrom(attempt, 1, n), ReadOutput(w.files));
    if spj then CheckedAll(cases, w.spjExit) else cases
  }

  lemma CollectedWhole(w: World, attempt: Attempts, spj: bool, n: int)
    requires n >= 1 && RanThrough(w, attempt, spj, n)
    ensures Collected(w, n) == KeepAll(RunFrom(attempt, 1, n), ReadOutput(w.files))
  {
    hide Collect, Lines, ParseRunnerLine, Printed, KeepAll;
    var rs := RunFrom(attempt, 1, n);
    RunShape(attempt, 1, n);
    forall i | 0 <= i < |rs| ensures rs[i].index == 1 + i && Printable(rs[i]) {
      assert attempt(1 + i).verdict in RUNNER_VERDICTS;
    }
    assert Numbered(rs, 1);
    RunRoundTrip(rs, n, ReadOutput(w.files));
  }

  lemma SandboxReports(w: World, attempt: Attempts, spj: bool, n: int, timeLimit: int)
    requires n >= 1 && RanThrough(w, attempt, spj, n)
    ensures DockerJudge(w, spj, n, timeLimit) == SandboxResult("OK", "", FinalCases(w, attempt, spj, n))
  {
    hide Collected, Limited, OrElse, Printed;
    CollectedWhole(w, attempt, spj, n);
    RunShape(attempt, 1, n);
    var cases := KeepAll(RunFrom(attempt, 1, n), ReadOutput(w.files));
    forall i | spj && 0 <= i < |cases| ensures w.spjExit(cases[i].index).Some? {
      assert cases[i].index == i + 1;
    }
  }

  lemma FinalCaseFields(w: World, attempt: Attempts, spj: bool, n: int, i: nat)
    requires n >= 1 && i < |FinalCases(w, attempt, spj, n)|
    ensures i < n
    ensures var r := attempt(i + 1).(index := i + 1);
            FinalCases(w, attempt, spj, n)[i] ==
              if spj then Checked(Attach(r, w.files), w.spjExit) else Attach(r, w.files)
  {
    RunShape(attempt, 1, n);
    assert RunFrom(attempt, 1, n)[i] == attempt(i + 1).(index := i + 1);
  }

  /** A case passes the fold exactly if its judgement is OK; otherwise the fold writes that
      judgement with the measured figures. */
  lemma FinalCaseIs(w: World, r: Report, spj: bool, key: Key, c: Case, v: string)
    requires 1 <= r.index <= |key.expected|
    requires c == if spj then Checked(Attach(r, w.files), w.spjExit) else Attach(r, w.files)
    requires v == Judgement(w, r, spj, key)
    ensures c.time == r.time && c.mem == r.mem
    ensures Passes(c, key) <==> v == "OK"
    ensures v != "OK" ==> Failure(c, key) == Write(StatusOf(v), r.time, r.mem, OnCase(v, r.index))
  {
  }

  lemma FoldOfFailure(w: World, attempt: Attempts, spj: bool, key: Key, k: int)
    requires 1 <= k <= |key.expected|
    requires CaseVerdict(w, attempt, spj, key, k) != "OK"
    requires forall j :: 1 <= j < k ==> CaseVerdict(w, attempt, spj, key, j) == "OK"
    ensures var v := CaseVerdict(w, attempt, spj, key, k);
            Fold(FinalCases(w, attempt, spj, |key.expected|), key)
              == Write(StatusOf(v), attempt(k).time, attempt(k).mem, OnCase(v, k))
  {
    var cases := FinalCases(w, attempt, spj, |key.expected|);
    ReachesCase(w, attempt, spj, key, k);
    PassesUntil(w, attempt, spj, key, k - 1);
    FinalCaseFields(w, attempt, spj, |key.expected|, k - 1);
    FinalCaseIs(w, attempt(k).(index := k), spj, key, cases[k - 1], CaseVerdict(w, attempt, spj, key, k));
    FirstFailingIs(cases, key, k - 1);
  }

  lemma FoldOfSuccess(w: World, attempt: Attempts, spj: bool, key: Key)
    requires |key.expected| >= 1
    requires forall j :: 1 <= j <= |key.expected| ==> CaseVerdict(w, attempt, spj, key, j) == "OK"
    ensures var cases := FinalCases(w, attempt, spj, |key.expected|);
            |cases| == |key.expected| && Fold(cases, key) == Accepted(cases, key)
  {
    var n := |key.expected|;
    var cases := FinalCases(w, attempt, spj, n);
    ReachesCase(w, attempt, spj, key, n);
    PassesUntil(w, attempt, spj, key, n);
    FirstFailingIs(cases, key, n);
    FinalCaseFields(w, attempt, spj, n, n - 1);
  }

  lemma JudgeReported(r: SandboxResult, cases: seq<Case>, key: Key)
    requires r == SandboxResult("OK", "", cases)
    ensures Judge(r, key) == Fold(cases, key)
  {
  }

  /** The verdict of a run that reached the host whole is decided by the least case whose
      judgement is not OK. */
  lemma VerdictIsTheLeastFailure(w: World, attempt: Attempts, spj: bool, key: Key, timeLimit: int, k: int)
    requires 1 <= k <= |key.expected| && RanThrough(w, attempt, spj, |key.expected|)
    requires CaseVerdict(w, attempt, spj, key, k) != "OK"
    requires forall j :: 1 <= j < k ==> CaseVerdict(w, attempt, spj, key, j) == "OK"
    ensures var v := CaseVerdict(w, attempt, spj, key, k);
            Judge(DockerJudge(w, spj, |key.expected|, timeLimit), key)
              == Write(if v == "SE" then "SYSTEM_ERROR" else v, attempt(k).time, attempt(k).mem, OnCase(v, k))
  {
    var n := |key.expected|;
    SandboxReports(w, attempt, spj, n, timeLimit);
    JudgeReported(DockerJudge(w, spj, n, timeLimit), FinalCases(w, attempt, spj, n), key);
    FoldOfFailure(w, attempt, spj, key, k);
  }

  /** It is AC, with the largest figures over all cases, if every judgement is OK. */
  lemma AcceptedWhenAllPass(w: World, attempt: Attempts, spj: bool, key: Key, timeLimit: int)
    requires |key.expected| >= 1 && RanThrough(w, attempt, spj, |key.expected|)
    requires forall j :: 1 <= j <= |key.expected| ==> CaseVerdict(w, attempt, spj, key, j) == "OK"
    ensures var n := |key.expected|;
            var o := Judge(DockerJudge(w, spj, n, timeLimit), key);
            o.Write? && o.status == "AC" && o.info == AllPassed(n) &&
            o.time >= 0 && o.mem >= -1 &&
            (forall k :: 1 <= k <= n ==> attempt(k).time <= o.time && attempt(k).mem <= o.mem) &&
            (o.time == 0 || exists k :: 1 <= k <= n && attempt(k).time == o.time) &&
            (o.mem == -1 || exists k :: 1 <= k <= n && attempt(k).mem == o.mem)
  {
    var n := |key.expected|;
    var cases := FinalCases(w, attempt, spj, n);
    hide DockerJudge, Judge, RanThrough, Fold;
    SandboxReports(w, attempt, spj, n, timeLimit);
    JudgeReported(DockerJudge(w, spj, n, timeLimit), cases, key);
    FoldOfSuccess(w, attempt, spj, key);
    hide CaseVerdict, Checked, CheckedAll, Attach, MaxTime, MaxMem, LargestTime, LargestMem, FinalCases;
    forall k | 1 <= k <= n ensures cases[k - 1].time == attempt(k).time && cases[k - 1].mem == attempt(k).mem {
      FinalCaseFields(w, attempt, spj, n, k - 1);
    }
    MaximaAre(cases);
    SameFigures(cases, attempt, MaxTime(cases), MaxMem(cases));
  }

  lemma SameFigures(cases: seq<Case>, attempt: Attempts, time: int, mem: int)
    requires forall k :: 1 <= k <= |cases| ==> cases[k - 1].time == attempt(k).time && cases[k - 1].mem == attempt(k).mem
    requires LargestTime(time, cases) && LargestMem(mem, cases)
    ensures time >= 0 && mem >= -1
    ensures forall k :: 1 <= k <= |cases| ==> attempt(k).time <= time && attempt(k).mem <= mem
    ensures time == 0 || exists k :: 1 <= k <= |cases| && attempt(k).time == time
    ensures mem == -1 || exists k :: 1 <= k <= |cases| && attempt(k).mem == mem
  {
    if time != 0 {
      var i :| 0 <= i < |cases| && cases[i].time == time;
      assert cases[i + 1 - 1].time == attempt(i + 1).time;
    }
    if mem != -1 {
      var i :| 0 <= i < |cases| && cases[i].mem == mem;
      assert cases[i + 1 - 1].mem == attempt(i + 1).mem;
    }
  }

  /** The runner gets to case `k` if all earlier judgements are OK. */
  lemma ReachesCase(w: World, attempt: Attempts, spj: bool, key: Key, k: int)
    requires 1 <= k <= |key.expected|
    requires forall j :: 1 <= j < k ==> CaseVerdict(w, attempt, spj, key, j) == "OK"
    ensures k <= |FinalCases(w, attempt, spj, |key.expected|)| <= |key.expected|
  {
    RunShape(attempt, 1, |key.expected|);
    var m := |RunFrom(attempt, 1, |key.expected|)|;
    assert RunFrom(attempt, 1, |key.expected|)[m - 1] == attempt(m).(index := m);
    var last := CaseVerdict(w, attempt, spj, key, m);
    assert last == "OK" ==> attempt(m).verdict == "OK";
  }

  lemma PassesUntil(w: World, attempt: Attempts, spj: bool, key: Key, k: int)
    requires 0 <= k <= |key.expected| && 1 <= |key.expected|
    requires k <= |FinalCases(w, attempt, spj, |key.expected|)|
    requires forall j :: 1 <= j <= k ==> CaseVerdict(w, attempt, spj, key, j) == "OK"
    ensures forall i :: 0 <= i < k ==> Passes(FinalCases(w, attempt, spj, |key.expected|)[i], key)
  {
    var cases := FinalCases(w, attempt, spj, |key.expected|);
    forall i | 0 <= i < k ensures Passes(cases[i], key) {
      FinalCaseFields(w, attempt, spj, |key.expected|, i);
      FinalCaseIs(w, attempt(i + 1).(index := i + 1), spj, key, cases[i], CaseVerdict(w, attempt, spj, key, i + 1));
    }
  }
}
