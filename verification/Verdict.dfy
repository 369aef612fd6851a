/** From the runner's reports to the verdict in the submission row: the sandbox
    (`DockerJudgeSandbox::judge` and the SPJ pass, nl-judge/src/sandbox.cpp) and the fold at
    the end of `run_judge_task` (nl-judge/src/module.cpp). */
module Verdict {
  import opened Wrappers
  import opened Text
  import opened RunnerText
  import OutputMatch

  datatype SandboxResult = SandboxResult(status: string, error: string, cases: seq<Case>)

  /** The final UPDATE of the submission row, or none. */
  datatype Outcome = NoWrite | Write(status: string, time: int, mem: int, info: Info)

  /** The `judge_info` column. */
  datatype Info = Message(text: string) | OnCase(verdict: string, index: int) | AllPassed(count: int)

  function FullText(info: Info): string {
    match info
    case Message(text) => text
    case OnCase(v, k) => v + " on test case " + Decimal(k)
    case AllPassed(n) => "All " + Decimal(n) + " test cases passed"
  }

  /** Its text as `write_verdict` clips it, to fit VARCHAR(512). */
  function InfoText(info: Info): (s: string)
    ensures |s| <= 500 && s <= FullText(info) && (|FullText(info)| <= 500 ==> s == FullText(info))
  {
    var text := FullText(info);
    if |text| > 500 then text[..500] else text
  }

  /** Which texts are whole; a message keeps its first 500 characters. */
  lemma InfoTextIs(text: string, verdict: string, k: nat)
    ensures InfoText(Message(text)) == if |text| <= 500 then text else text[..500]
    ensures InfoText(OnCase(verdict, k)) == verdict + " on test case " + Decimal(k)
            <==> |verdict| + |Decimal(k)| <= 486
    ensures InfoText(AllPassed(k)) == "All " + Decimal(k) + " test cases passed" <==> |Decimal(k)| <= 478
  {
    assert |InfoText(OnCase(verdict, k))| <= 500 && |InfoText(AllPassed(k))| <= 500;
  }

  /** What the fold compares against: the expected outputs and the comparison rule. */
  datatype Key = Key(expected: seq<string>, accepts: (string, string) -> bool)

  function KeyFor(problemType: string, judgeMode: string, expected: seq<string>): Key {
    Key(expected, RuleFor(problemType, judgeMode))
  }

  /** The host compares outputs only for STANDARD problems in EXACT mode, which are also
      the defaults for empty columns; otherwise the sandbox has already decided. */
  function RuleFor(problemType: string, judgeMode: string): (string, string) -> bool {
    if problemType in {"", "STANDARD"} && judgeMode in {"", "EXACT"} then ExactRule() else (e, a) => true
  }

  function ExactRule(): (string, string) -> bool {
    (e, a) => OutputMatch.Canonical(e) == OutputMatch.Canonical(a)
  }

  predicate Passes(c: Case, key: Key) {
    && c.verdict == "OK"
    && 1 <= c.index <= |key.expected|
    && key.accepts(key.expected[c.index - 1], c.output)
  }

  /** The runner's SE is the database's SYSTEM_ERROR. */
  function StatusOf(verdict: string): string { if verdict == "SE" then "SYSTEM_ERROR" else verdict }

  /** What is written for a case that does not pass. */
  function Failure(c: Case, key: Key): Outcome {
    if c.verdict != "OK" then
      Write(StatusOf(c.verdict), c.time, c.mem, OnCase(c.verdict, c.index))
    else if c.index > |key.expected| then NoWrite
    else Write("WA", c.time, c.mem, OnCase("WA", c.index))
  }

  /** Index of the first case that does not pass, or the number of cases. */
  function FirstFailing(cases: seq<Case>, key: Key): (k: nat)
    ensures k <= |cases|
    ensures forall i :: 0 <= i < k ==> Passes(cases[i], key)
    ensures k < |cases| ==> !Passes(cases[k], key)
  {
    if cases == [] || !Passes(cases[0], key) then 0 else 1 + FirstFailing(cases[1..], key)
  }

  function MaxTime(cases: seq<Case>): int {
    if cases == [] then 0 else Larger(MaxTime(cases[..|cases| - 1]), cases[|cases| - 1].time)
  }

  function MaxMem(cases: seq<Case>): int {
    if cases == [] then -1 else Larger(MaxMem(cases[..|cases| - 1]), cases[|cases| - 1].mem)
  }

  function Larger(a: int, b: int): int { if b > a then b else a }

  function LastIndex(cases: seq<Case>): int {
    if cases == [] then 0 else cases[|cases| - 1].index
  }

  function Accepted(cases: seq<Case>, key: Key): Outcome {
    Write("AC", MaxTime(cases), MaxMem(cases), AllPassed(|key.expected|))
  }

  function Fold(cases: seq<Case>, key: Key): Outcome {
    var k := FirstFailing(cases, key);
    if k < |cases| then Failure(cases[k], key)
    else if LastIndex(cases) == |key.expected| then Accepted(cases, key)
    else NoWrite
  }

  function Judge(r: SandboxResult, key: Key): Outcome {
    if r.status == "CE" then Write("CE", -1, -1, Message(r.error))
    else if r.status != "OK" then
      Write("SYSTEM_ERROR", -1, -1, Message(if r.error == "" then "sandbox run failed" else r.error))
    else Fold(r.cases, key)
  }

  /** The statuses `run_judge_task` recognises as final. */
  const TERMINAL: set<string> := {"AC", "WA", "TLE", "MLE", "RE", "CE", "SYSTEM_ERROR"}

  /** The verdicts `run_std`, `run_interactive` and `run_comm` emit. */
  const RUNNER_VERDICTS: set<string> := {"OK", "WA", "TLE", "MLE", "RE", "SE"}

  /** Something is written, and the next task for the submission will take it as final. */
  predicate Recognised(w: Outcome) { w.Write? && w.status in TERMINAL }

  lemma FailureIsTerminal(c: Case, key: Key)
    requires c.verdict in RUNNER_VERDICTS
    ensures Failure(c, key).Write? ==> Recognised(Failure(c, key))
  {
  }

  /** What is written for the runner's verdicts is always recognised. */
  lemma WritesTerminal(r: SandboxResult, key: Key)
    requires forall i :: 0 <= i < |r.cases| ==> r.cases[i].verdict in RUNNER_VERDICTS
    ensures Judge(r, key).Write? ==> Recognised(Judge(r, key))
  {
    var k := FirstFailing(r.cases, key);
    if k < |r.cases| {
      FailureIsTerminal(r.cases[k], key);
    }
  }

  // ----------------------------------------------------------------------- the loops

  lemma FirstFailingIs(cases: seq<Case>, key: Key, k: nat)
    requires k <= |cases| && forall i :: 0 <= i < k ==> Passes(cases[i], key)
    requires k < |cases| ==> !Passes(cases[k], key)
    ensures FirstFailing(cases, key) == k
  {
    var j := FirstFailing(cases, key);
    assert k < |cases| ==> !(k < j);
    assert j < |cases| ==> !(j < k);
  }

  /** The comparison on the host, with the defaults of the two columns. */
  method OutputIsRight(problemType: string, judgeMode: string, expected: string, actual: string) returns (right: bool)
    ensures right == RuleFor(problemType, judgeMode)(expected, actual)
  {
    hide OutputMatch.Canonical;
    var kind := if problemType == "" then "STANDARD" else problemType;
    var mode := if judgeMode == "" then "EXACT" else judgeMode;
    right := true;
    if kind == "STANDARD" && mode == "EXACT" {
      right := OutputMatch.JudgeOutputsMatch(expected, actual);
    }
  }

  /** The loop of `run_judge_task` over the sandbox's cases.  Case numbers count from 1. */
  method FoldCases(cases: seq<Case>, problemType: string, judgeMode: string, expected: seq<string>)
      returns (w: Outcome)
    requires forall i :: 0 <= i < |cases| ==> cases[i].index >= 1
    ensures w == Fold(cases, KeyFor(problemType, judgeMode, expected))
  {
    hide RuleFor;
    ghost var key := KeyFor(problemType, judgeMode, expected);
    var maxTime, maxMem, caseNo := 0, -1, 0;
    for i := 0 to |cases|
      invariant maxTime == MaxTime(cases[..i]) && maxMem == MaxMem(cases[..i])
      invariant caseNo == LastIndex(cases[..i])
      invariant forall j :: 0 <= j < i ==> Passes(cases[j], key)
    {
      var one := cases[i];
      caseNo := one.index;
      assert cases[..i + 1][..i] == cases[..i];
      if !Passes(one, key) {
        FirstFailingIs(cases, key, i);
      }
      if one.verdict != "OK" {
        return Write(if one.verdict == "SE" then "SYSTEM_ERROR" else one.verdict, one.time, one.mem,
                     OnCase(one.verdict, one.index));
      }
      if one.index > |expected| {
        return NoWrite;
      }
      if one.time > maxTime {
        maxTime := one.time;
      }
      if one.mem > maxMem {
        maxMem := one.mem;
      }
      var right := OutputIsRight(problemType, judgeMode, expected[one.index - 1], one.output);
      if !right {
        return Write("WA", one.time, one.mem, OnCase("WA", one.index));
      }
    }
    assert cases[..|cases|] == cases;
    FirstFailingIs(cases, key, |cases|);
    if caseNo != |expected| {
      return NoWrite;
    }
    w := Write("AC", maxTime, maxMem, AllPassed(|expected|));
  }

  /** The checker's answer on a case: `exits(k)` is its exit code, none if it timed out. */
  function Checked(c: Case, exits: int -> Option<int>): Case {
    if c.verdict == "OK" && exits(c.index) != Some(0) then c.(verdict := "WA") else c
  }

  function CheckedAll(cases: seq<Case>, exits: int -> Option<int>): (r: seq<Case>)
    ensures |r| == |cases| && forall i :: 0 <= i < |r| ==> r[i] == Checked(cases[i], exits)
  {
    seq(|cases|, i requires 0 <= i < |cases| => Checked(cases[i], exits))
  }

  predicate CheckerAnswers(cases: seq<Case>, exits: int -> Option<int>) {
    forall i :: 0 <= i < |cases| && cases[i].verdict == "OK" ==> exits(cases[i].index).Some?
  }

  /** `apply_spj_local`: rewrites the verdicts in place; gives up when the checker hangs. */
  method ApplySpj(cases: array<Case>, exits: int -> Option<int>) returns (ok: bool)
    modifies cases
    ensures ok <==> CheckerAnswers(old(cases[..]), exits)
    ensures ok ==> cases[..] == CheckedAll(old(cases[..]), exits)
  {
    ghost var before := cases[..];
    for i := 0 to cases.Length
      invariant forall j :: 0 <= j < i ==> cases[j] == Checked(before[j], exits)
      invariant forall j :: i <= j < cases.Length ==> cases[j] == before[j]
      invariant forall j :: 0 <= j < i && before[j].verdict == "OK" ==> exits(before[j].index).Some?
    {
      if cases[i].verdict != "OK" {
        continue;
      }
      var r := exits(cases[i].index);
      if r.None? {
        return false;
      }
      if r.value != 0 {
        cases[i] := cases[i].(verdict := "WA");
      }
    }
    return true;
  }

  // -------------------------------------------------------------- what gets written

  /** How the sandbox numbers its cases, see `CollectIsNumbered`. */
  predicate WellNumbered(cases: seq<Case>, key: Key) {
    |cases| <= |key.expected| && forall i :: 0 <= i < |cases| ==> cases[i].index == i + 1
  }

  /** The largest time of a case, at least 0. */
  predicate LargestTime(t: int, cases: seq<Case>) {
    && t >= 0 && (forall i :: 0 <= i < |cases| ==> cases[i].time <= t)
    && (t == 0 || exists i :: 0 <= i < |cases| && cases[i].time == t)
  }

  /** The largest memory of a case; -1 stands for none measured. */
  predicate LargestMem(m: int, cases: seq<Case>) {
    && m >= -1 && (forall i :: 0 <= i < |cases| ==> cases[i].mem <= m)
    && (m == -1 || exists i :: 0 <= i < |cases| && cases[i].mem == m)
  }

  lemma {:induction false} MaximaAre(cases: seq<Case>)
    ensures LargestTime(MaxTime(cases), cases) && LargestMem(MaxMem(cases), cases)
  {
    if cases != [] {
      var n := |cases| - 1;
      MaximaAre(cases[..n]);
      assert forall i :: 0 <= i < n ==> cases[..n][i] == cases[i];
      if MaxTime(cases) != 0 && MaxTime(cases) != cases[n].time {
        var i :| 0 <= i < n && cases[..n][i].time == MaxTime(cases[..n]);
        assert cases[i].time == MaxTime(cases);
      }
      if MaxMem(cases) != -1 && MaxMem(cases) != cases[n].mem {
        var i :| 0 <= i < n && cases[..n][i].mem == MaxMem(cases[..n]);
        assert cases[i].mem == MaxMem(cases);
      }
    }
  }

  /** The runner is content with the case and its output is the `k`-th expected one. */
  predicate Right(c: Case, k: nat, key: Key)
    requires k < |key.expected|
  {
    c.verdict == "OK" && key.accepts(key.expected[k], c.output)
  }

  /** Every output is there and right. */
  predicate AllPass(r: SandboxResult, key: Key) {
    r.status == "OK" && |r.cases| == |key.expected| && forall i :: 0 <= i < |r.cases| ==> Right(r.cases[i], i, key)
  }

  lemma PassesIsRight(cases: seq<Case>, key: Key)
    ensures WellNumbered(cases, key) ==>
              forall i :: 0 <= i < |cases| ==> (Passes(cases[i], key) <==> Right(cases[i], i, key))
  {
  }

  /** Soundness and completeness of AC.  A case whose verdict text is itself "AC" would be
      written through unchanged; the runner prints no such verdict. */
  lemma AcceptedIff(r: SandboxResult, key: Key)
    requires r.status == "OK" ==> WellNumbered(r.cases, key)
    requires forall i :: 0 <= i < |r.cases| ==> r.cases[i].verdict != "AC"
    ensures (Judge(r, key).Write? && Judge(r, key).status == "AC") <==> AllPass(r, key)
    ensures AllPass(r, key) ==>
              var w := Judge(r, key);
              w.info == AllPassed(|key.expected|) && LargestTime(w.time, r.cases) && LargestMem(w.mem, r.cases)
  {
    PassesIsRight(r.cases, key);
    MaximaAre(r.cases);
  }

  /** The runner's text says AC itself, on the first case that does not pass. */
  predicate SaysAc(r: SandboxResult, key: Key)
    requires r.status == "OK" ==> WellNumbered(r.cases, key)
  {
    r.status == "OK" &&
    exists k :: 0 <= k < |r.cases| && r.cases[k].verdict == "AC" && forall i :: 0 <= i < k ==> Right(r.cases[i], i, key)
  }

  /** For arbitrary verdict texts, AC means that all cases pass exactly if that does not
      happen. */
  lemma AcceptedExactly(r: SandboxResult, key: Key)
    requires r.status == "OK" ==> WellNumbered(r.cases, key)
    ensures ((Judge(r, key).Write? && Judge(r, key).status == "AC") <==> AllPass(r, key)) <==> !SaysAc(r, key)
  {
    PassesIsRight(r.cases, key);
  }

  /** Without that assumption the statement is false. */
  lemma VerdictTextAcIsWritten()
    ensures var key := Key(["1", "2"], ExactRule());
            var r := SandboxResult("OK", "", [Case(1, "AC", 0, 0, "")]);
            var w := Judge(r, key);
            WellNumbered(r.cases, key) && w.Write? && w.status == "AC" && |r.cases| < 2
  {
    var c := Case(1, "AC", 0, 0, "");
    var key := Key(["1", "2"], ExactRule());
    assert !Passes(c, key);
    assert FirstFailing([c], key) == 0;
  }

  /** The least failing case decides with its own word and figures, and nothing is written
      exactly when the results stop short without a failing one. */
  lemma LeastFailingDecides(r: SandboxResult, key: Key)
    requires r.status == "OK" && WellNumbered(r.cases, key)
    ensures forall k :: 0 <= k < |r.cases| && (forall i :: 0 <= i < k ==> Right(r.cases[i], i, key)) ==>
              var c := r.cases[k];
              (c.verdict == "SE" ==> Judge(r, key) == Write("SYSTEM_ERROR", c.time, c.mem, OnCase("SE", k + 1))) &&
              (c.verdict !in {"OK", "SE"} ==> Judge(r, key) == Write(c.verdict, c.time, c.mem, OnCase(c.verdict, k + 1))) &&
              (c.verdict == "OK" && !key.accepts(key.expected[k], c.output) ==>
                 Judge(r, key) == Write("WA", c.time, c.mem, OnCase("WA", k + 1)))
    ensures Judge(r, key) == NoWrite <==>
            |r.cases| < |key.expected| && forall i :: 0 <= i < |r.cases| ==> Right(r.cases[i], i, key)
  {
    PassesIsRight(r.cases, key);
    forall k | 0 <= k < |r.cases| && !Right(r.cases[k], k, key) && (forall i :: 0 <= i < k ==> Right(r.cases[i], i, key))
      ensures FirstFailing(r.cases, key) == k
    {
      FirstFailingIs(r.cases, key, k);
    }
  }

  // ------------------------------------------------------------------- after the sandbox

  /** The end of `run_judge_task`, from the sandbox's result on. */
  method JudgeResult(r: SandboxResult, problemType: string, judgeMode: string, expected: seq<string>)
      returns (w: Outcome)
    requires forall i :: 0 <= i < |r.cases| ==> r.cases[i].index >= 1
    ensures w == Judge(r, KeyFor(problemType, judgeMode, expected))
  {
    if r.status == "CE" {
      return Write("CE", -1, -1, Message(r.error));
    }
    if r.status != "OK" {
      var info := r.error;
      if info == "" {
        info := "sandbox run failed";
      }
      return Write("SYSTEM_ERROR", -1, -1, Message(info));
    }
    w := FoldCases(r.cases, problemType, judgeMode, expected);
  }
}
