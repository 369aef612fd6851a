/** What can happen to the status of one submission's row, over all runs of the delivery
    system: when a final status stays, when two final statuses agree, and how the reclaimer
    brings a dropped submission back. */
module SubmissionStatus {
  import opened Wrappers
  import opened Verdict
  import opened Delivery
  import opened DeliverySafety

  // -------------------------------------------------------------------- transitions

  /** The only ways a row's status changes: the JUDGING write, from any status; the final
      write; and the reclaimer's reset, from JUDGING only. */
  lemma Transitions(s: State, e: Event, id: int)
    requires Enabled(s, e) && id in s.rows
    ensures id in Apply(s, e).rows
    ensures var before, after := s.rows[id], Apply(s, e).rows[id];
            after == before
            || (e.Mark? && e.applied && s.threads[e.t].task.msg.submission == id && after == before.(status := Judging))
            || (e.Conclude? && e.applied && s.threads[e.t].task.msg.submission == id && after == before.(status := Final(e.outcome)))
            || (e.Reset? && e.applied && before.status == Judging && after == before.(status := Pending))
  {
    hide Next, ThreadsAfter, MqAfter, OrphanedAfter;
  }

  // ------------------------------------------------------------- when final is final

  /** Past its reading of a row that was not final, and yet to write JUDGING. */
  predicate WillMark(pc: Pc, id: int) {
    pc.Running? && pc.task.msg.submission == id && !pc.stage.Marked?
  }

  ghost predicate NoneWillMark(threads: map<Tid, Pc>, id: int) {
    forall t :: t in threads ==> !WillMark(threads[t], id)
  }

  lemma NextWillMark(s: State, e: Event, id: int)
    requires MovesThread(e) && CanMove(s, e) && Next(s, e).Some? && WillMark(Next(s, e).value, id)
    ensures !IsFinal(s.rows, id) || (e.t in s.threads && WillMark(s.threads[e.t], id))
  {
  }

  lemma CallWillMark(s: State, e: Event, t: Tid, id: int)
    requires !MovesThread(e) && CanCall(s, e)
    requires t in ThreadsAfter(s, e) && WillMark(ThreadsAfter(s, e)[t], id)
    ensures t in s.threads && ThreadsAfter(s, e)[t] == s.threads[t]
  {
    hide Parse;
  }

  lemma MarkWillMark(s: State, e: Event, id: int)
    requires Enabled(s, e) && e.Mark? && s.threads[e.t].task.msg.submission == id
    ensures WillMark(s.threads[e.t], id)
  {
  }

  lemma StepKeepsFinal(s: State, e: Event, id: int)
    requires Enabled(s, e) && IsFinal(s.rows, id) && NoneWillMark(s.threads, id)
    ensures IsFinal(Apply(s, e).rows, id) && NoneWillMark(Apply(s, e).threads, id)
  {
    hide Next, Written, MqAfter, ThreadsAfter, OrphanedAfter, AcceptedAfter, WillMark, CanCall;
    var r := Apply(s, e);
    Transitions(s, e, id);
    if e.Mark? && s.threads[e.t].task.msg.submission == id {
      MarkWillMark(s, e, id);
    }
    forall t | t in r.threads ensures !WillMark(r.threads[t], id) {
      if WillMark(r.threads[t], id) {
        if !MovesThread(e) {
          CallWillMark(s, e, t, id);
        } else if t == e.t {
          NextWillMark(s, e, id);
        }
      }
    }
  }

  lemma {:induction false} RunKeepsFinal(s: State, es: seq<Event>, id: int)
    requires IsRun(s, es) && IsFinal(s.rows, id) && NoneWillMark(s.threads, id)
    ensures IsFinal(After(s, es).rows, id) && NoneWillMark(After(s, es).threads, id)
    decreases |es|
  {
    hide Apply, Enabled, NoneWillMark, IsFinal;
    if es != [] {
      StepKeepsFinal(s, es[0], id);
      RunKeepsFinal(Apply(s, es[0]), es[1..], id);
    }
  }

  ghost predicate FinalForever(s: State, id: int) {
    forall es :: IsRun(s, es) ==> IsFinal(After(s, es).rows, id)
  }

  lemma RunOne(s: State, e: Event, es: seq<Event>)
    requires Enabled(s, e) && IsRun(Apply(s, e), es)
    ensures IsRun(s, [e] + es) && After(s, [e] + es) == After(Apply(s, e), es)
  {
    hide Apply, Enabled;
    assert ([e] + es)[1..] == es;
  }

  const SOME_CONFIG := Config(0, 0, "", "", "")

  const SOME_CASES := [TestCase("", "")]

  /** A worker in that stretch can always get to its JUDGING write. */
  lemma MarkPrepared(s: State, t: Tid, id: int) returns (es: seq<Event>)
    requires At(s, t) && WillMark(s.threads[t], id) && id in s.rows && s.threads[t].stage.Prepared?
    ensures IsRun(s, es) && !IsFinal(After(s, es).rows, id)
  {
    es := [Mark(t, true, true)] + [];
    RunOne(s, Mark(t, true, true), []);
  }

  lemma MarkConfigured(s: State, t: Tid, id: int) returns (es: seq<Event>)
    requires At(s, t) && WillMark(s.threads[t], id) && id in s.rows && s.threads[t].stage.Configured?
    requires var p := s.threads[t].stage.problem; p in s.problems.cases && s.problems.cases[p] != []
    ensures IsRun(s, es) && !IsFinal(After(s, es).rows, id)
  {
    var r := Apply(s, LookCases(t));
    var rest := MarkPrepared(r, t, id);
    RunOne(s, LookCases(t), rest);
    es := [LookCases(t)] + rest;
  }

  lemma MarkLooked(s: State, t: Tid, id: int) returns (es: seq<Event>)
    requires At(s, t) && WillMark(s.threads[t], id) && id in s.rows && s.threads[t].stage.Looked?
    requires var p := s.threads[t].stage.problem;
             p in s.problems.cases && s.problems.cases[p] != [] && p in s.problems.configs
    ensures IsRun(s, es) && !IsFinal(After(s, es).rows, id)
  {
    var r := Apply(s, LookConfig(t));
    var rest := MarkConfigured(r, t, id);
    RunOne(s, LookConfig(t), rest);
    es := [LookConfig(t)] + rest;
  }

  lemma MarkSometime(s: State, t: Tid, id: int) returns (es: seq<Event>)
    requires At(s, t) && WillMark(s.threads[t], id) && id in s.rows
    ensures IsRun(s, es) && !IsFinal(After(s, es).rows, id)
  {
    if s.threads[t].stage.Prepared? {
      es := MarkPrepared(s, t, id);
    } else {
      var edit := Edit(s.threads[t].stage.problem, Some(SOME_CONFIG), SOME_CASES);
      var r := Apply(s, edit);
      var rest;
      if s.threads[t].stage.Looked? {
        rest := MarkLooked(r, t, id);
      } else {
        rest := MarkConfigured(r, t, id);
      }
      RunOne(s, edit, rest);
      es := [edit] + rest;
    }
  }

  /** A final status stays final in every continuation if and only if no worker is between
      having read the row before it became final and its unguarded JUDGING write. */
  lemma FinalForeverIff(s: State, id: int)
    requires Reachable(s) && IsFinal(s.rows, id)
    ensures FinalForever(s, id) <==> NoneWillMark(s.threads, id)
  {
    hide Apply, Enabled, Reachable, WillMark;
    if NoneWillMark(s.threads, id) {
      forall es | IsRun(s, es) ensures IsFinal(After(s, es).rows, id) {
        RunKeepsFinal(s, es, id);
      }
    } else {
      var t :| t in s.threads && WillMark(s.threads[t], id);
      ReachableInv(s);
      assert ThreadOk(s.mq.procs, t, s.threads[t]);
      var es := MarkSometime(s, t, id);
    }
  }

  // ----------------------------------------------------------- windows that do not overlap

  predicate Judges(pc: Pc, id: int) { pc.Running? && pc.task.msg.submission == id }

  ghost predicate OneJudge(threads: map<Tid, Pc>, id: int) {
    forall t, u :: t in threads && u in threads && Judges(threads[t], id) && Judges(threads[u], id) ==> t == u
  }

  /** In no state of the run do two workers judge the submission. */
  ghost predicate Solitary(s: State, es: seq<Event>, id: int)
    requires IsRun(s, es)
    decreases |es|
  {
    OneJudge(s.threads, id) && (es != [] ==> Solitary(Apply(s, es[0]), es[1..], id))
  }

  ghost predicate SettledFinal(s: State, id: int) { IsFinal(s.rows, id) ==> NoneWillMark(s.threads, id) }

  lemma FinalByConclude(s: State, e: Event, id: int)
    requires Enabled(s, e) && id in s.rows && !IsFinal(s.rows, id) && IsFinal(Apply(s, e).rows, id)
    ensures e.Conclude? && Judges(s.threads[e.t], id) && s.threads[e.t].stage.Marked?
  {
    hide Next, MqAfter, ThreadsAfter, OrphanedAfter, AcceptedAfter;
    Transitions(s, e, id);
  }

  lemma BecomesFinal(s: State, e: Event, id: int)
    requires Enabled(s, e) && e.Conclude? && Judges(s.threads[e.t], id) && OneJudge(s.threads, id)
    ensures NoneWillMark(Apply(s, e).threads, id)
  {
    var r := Apply(s, e);
    forall t | t in r.threads ensures !WillMark(r.threads[t], id) {
      assert t != e.t ==> t in s.threads && !Judges(s.threads[t], id);
    }
  }

  lemma AppearsPending(s: State, e: Event, id: int)
    requires Enabled(s, e) && id !in s.rows
    ensures !IsFinal(Apply(s, e).rows, id)
  {
    hide Next, MqAfter, ThreadsAfter, OrphanedAfter, AcceptedAfter;
  }

  /** Where the judging windows of a submission do not overlap, a final status is final. */
  lemma {:induction false} SolitaryKeepsFinal(s: State, es: seq<Event>, id: int)
    requires IsRun(s, es) && Solitary(s, es, id) && SettledFinal(s, id)
    ensures SettledFinal(After(s, es), id)
    ensures IsFinal(s.rows, id) ==> IsFinal(After(s, es).rows, id)
    decreases |es|
  {
    hide Apply, Enabled, NoneWillMark, IsFinal, OneJudge;
    if es != [] {
      var r := Apply(s, es[0]);
      if IsFinal(s.rows, id) {
        StepKeepsFinal(s, es[0], id);
      } else if IsFinal(r.rows, id) {
        if id in s.rows {
          FinalByConclude(s, es[0], id);
          BecomesFinal(s, es[0], id);
        } else {
          AppearsPending(s, es[0], id);
        }
      }
      SolitaryKeepsFinal(r, es[1..], id);
    }
  }

  // --------------------------------------------------------------- agreeing verdicts

  /** What the sandbox is given for a row. */
  function RequestFor(row: Row, ps: Problems): Option<Request> {
    if row.problem in ps.configs && row.problem in ps.cases && ps.cases[row.problem] != [] && row.language != "" && row.code != ""
    then Some(Request(row.language, row.code, ps.configs[row.problem], ps.cases[row.problem]))
    else None
  }

  /** What it would be given for the submission now. */
  function RequestOf(s: State, id: int): Option<Request> {
    if id in s.rows then RequestFor(s.rows[id], s.problems) else None
  }

  /** What a worker has read so far is what the tables say. */
  predicate Current(s: State, id: int, st: Stage) {
    id in s.rows &&
    match st
    case Looked(p, l, c) =>
      p == s.rows[id].problem && l == s.rows[id].language && c == s.rows[id].code && l != "" && c != ""
    case Configured(p, l, c, config) =>
      p == s.rows[id].problem && l == s.rows[id].language && c == s.rows[id].code && l != "" && c != "" &&
      p in s.problems.configs && s.problems.configs[p] == config
    case Prepared(req) => RequestOf(s, id) == Some(req)
    case Marked(req) => RequestOf(s, id) == Some(req)
  }

  ghost predicate AllCurrent(s: State, id: int) {
    forall t :: t in s.threads && Judges(s.threads[t], id) ==> Current(s, id, s.threads[t].stage)
  }

  ghost predicate Judged(s: State, id: int, verdict: Request -> Outcome) {
    IsFinal(s.rows, id) ==> RequestOf(s, id).Some? && s.rows[id].status.outcome == verdict(RequestOf(s, id).value)
  }

  /** The problem of the submission is left alone, and the sandbox is deterministic. */
  ghost predicate Fair(s: State, e: Event, id: int, verdict: Request -> Outcome)
    requires Enabled(s, e)
  {
    && (e.Edit? && id in s.rows ==> e.problem != s.rows[id].problem)
    && (e.Conclude? && Judges(s.threads[e.t], id) && e.applied ==> e.outcome == verdict(s.threads[e.t].stage.req))
  }

  ghost predicate FairRun(s: State, es: seq<Event>, id: int, verdict: Request -> Outcome)
    requires IsRun(s, es)
    decreases |es|
  {
    es != [] ==> Fair(s, es[0], id, verdict) && FairRun(Apply(s, es[0]), es[1..], id, verdict)
  }

  /** Nothing the sandbox would be given changes. */
  lemma RequestStays(s: State, e: Event, id: int, verdict: Request -> Outcome)
    requires Enabled(s, e) && Fair(s, e, id, verdict) && id in s.rows
    ensures RequestOf(Apply(s, e), id) == RequestOf(s, id)
    ensures forall st :: Current(s, id, st) ==> Current(Apply(s, e), id, st)
  {
    hide Next, Written, MqAfter, ThreadsAfter, OrphanedAfter, AcceptedAfter;
    Transitions(s, e, id);
  }

  lemma NextCurrent(s: State, e: Event, id: int)
    requires MovesThread(e) && CanMove(s, e) && Next(s, e).Some? && Judges(Next(s, e).value, id)
    requires e.t in s.threads && Judges(s.threads[e.t], id) ==> Current(s, id, s.threads[e.t].stage)
    ensures Current(s, id, Next(s, e).value.stage)
  {
  }

  lemma CallJudges(s: State, e: Event, t: Tid, id: int)
    requires !MovesThread(e) && CanCall(s, e)
    requires t in ThreadsAfter(s, e) && Judges(ThreadsAfter(s, e)[t], id)
    ensures t in s.threads && ThreadsAfter(s, e)[t] == s.threads[t]
  {
    hide Parse;
  }

  lemma StepKeepsCurrent(s: State, e: Event, id: int, verdict: Request -> Outcome)
    requires Enabled(s, e) && AllCurrent(s, id) && Fair(s, e, id, verdict)
    ensures AllCurrent(Apply(s, e), id)
  {
    hide Next, Written, MqAfter, ThreadsAfter, OrphanedAfter, AcceptedAfter, CanMove, CanCall, Current, Fair;
    var r := Apply(s, e);
    forall t | t in r.threads && Judges(r.threads[t], id) ensures Current(r, id, r.threads[t].stage) {
      if !MovesThread(e) {
        CallJudges(s, e, t, id);
      } else if t == e.t {
        NextCurrent(s, e, id);
      }
      CurrentHasRow(s, id, r.threads[t].stage);
      RequestStays(s, e, id, verdict);
    }
  }

  lemma CurrentHasRow(s: State, id: int, st: Stage)
    requires Current(s, id, st)
    ensures id in s.rows
  {
  }

  lemma StepKeepsJudged(s: State, e: Event, id: int, verdict: Request -> Outcome)
    requires Enabled(s, e) && AllCurrent(s, id) && Judged(s, id, verdict) && Fair(s, e, id, verdict)
    ensures Judged(Apply(s, e), id, verdict)
  {
    hide Next, Written, MqAfter, ThreadsAfter, OrphanedAfter, AcceptedAfter, CanCall, RequestOf, Apply;
    if id in s.rows {
      Transitions(s, e, id);
      RequestStays(s, e, id, verdict);
      if e.Conclude? && Judges(s.threads[e.t], id) {
        assert Current(s, id, s.threads[e.t].stage);
      }
    } else {
      AppearsPending(s, e, id);
    }
  }

  lemma {:induction false} RunKeepsJudged(s: State, es: seq<Event>, id: int, verdict: Request -> Outcome)
    requires IsRun(s, es) && FairRun(s, es, id, verdict) && AllCurrent(s, id) && Judged(s, id, verdict)
    ensures AllCurrent(After(s, es), id) && Judged(After(s, es), id, verdict)
    ensures id in s.rows ==> RequestOf(After(s, es), id) == RequestOf(s, id)
    ensures s.rows.Keys <= After(s, es).rows.Keys
    decreases |es|
  {
    hide Apply, Enabled, AllCurrent, Judged, RequestOf, Fair;
    if es != [] {
      var r := Apply(s, es[0]);
      StepKeepsCurrent(s, es[0], id, verdict);
      StepKeepsJudged(s, es[0], id, verdict);
      RowsStay(s, es[0]);
      if id in s.rows {
        RequestStays(s, es[0], id, verdict);
      }
      RunKeepsJudged(r, es[1..], id, verdict);
    }
  }

  lemma RowsStay(s: State, e: Event)
    requires Enabled(s, e)
    ensures s.rows.Keys <= Apply(s, e).rows.Keys
  {
    hide Next, MqAfter, ThreadsAfter, OrphanedAfter, AcceptedAfter;
  }

  /** However many workers judge a submission, overlapping or not, every final status ever
      written to its row is the same, as long as the sandbox is deterministic and its
      problem is not edited. */
  lemma FinalStatusesAgree(s0: State, es: seq<Event>, fs: seq<Event>, id: int, verdict: Request -> Outcome)
    requires Initial(s0) && IsRun(s0, es) && FairRun(s0, es, id, verdict)
    requires IsRun(After(s0, es), fs) && FairRun(After(s0, es), fs, id, verdict)
    requires IsFinal(After(s0, es).rows, id) && IsFinal(After(After(s0, es), fs).rows, id)
    ensures After(s0, es).rows[id].status == After(After(s0, es), fs).rows[id].status
    ensures RequestOf(After(s0, es), id).Some?
    ensures After(s0, es).rows[id].status == Final(verdict(RequestOf(After(s0, es), id).value))
  {
    hide Apply, Enabled, RequestOf, Fair;
    RunKeepsJudged(s0, es, id, verdict);
    RunKeepsJudged(After(s0, es), fs, id, verdict);
  }

  function Outputs(cases: seq<TestCase>): seq<string> {
    seq(|cases|, i requires 0 <= i < |cases| => cases[i].output)
  }

  /** The verdict of a deterministic sandbox: the fold over its results. */
  function VerdictOf(box: Request -> SandboxResult): Request -> Outcome {
    (req: Request) => Judge(box(req), KeyFor(req.config.problemType, req.config.judgeMode, Outputs(req.cases)))
  }

  /** Only recognised statuses are written. */
  ghost predicate Sound(verdict: Request -> Outcome) {
    forall req :: verdict(req).Write? ==> Recognised(verdict(req))
  }

  /** The verdicts of a sandbox that keeps to the runner's vocabulary are. */
  lemma VerdictOfIsSound(box: Request -> SandboxResult)
    requires forall req, c :: c in box(req).cases ==> c.verdict in RUNNER_VERDICTS
    ensures Sound(VerdictOf(box))
  {
    hide Judge, Recognised, KeyFor;
    forall req ensures VerdictOf(box)(req).Write? ==> Recognised(VerdictOf(box)(req)) {
      WritesTerminal(box(req), KeyFor(req.config.problemType, req.config.judgeMode, Outputs(req.cases)));
    }
  }

  /** So a final status is the fold of what the sandbox reports for the submission. */
  lemma FinalIsTheFold(s0: State, es: seq<Event>, id: int, box: Request -> SandboxResult)
    requires Initial(s0) && IsRun(s0, es) && FairRun(s0, es, id, VerdictOf(box))
    requires IsFinal(After(s0, es).rows, id)
    ensures RequestOf(After(s0, es), id).Some?
    ensures var req := RequestOf(After(s0, es), id).value;
            After(s0, es).rows[id].status ==
              Final(Judge(box(req), KeyFor(req.config.problemType, req.config.judgeMode, Outputs(req.cases))))
  {
    hide Apply, Enabled, RequestOf, Fair, KeyFor, Judge;
    RunKeepsJudged(s0, es, id, VerdictOf(box));
  }

  // ---------------------------------------------------------------------- reclaiming

  /** The way a publish goes when nothing else fails. */
  function RouteOf(b: Backend): Route { RouteFor(b, b == Rabbit(true)) }

  /** A publish by any thread leaves a copy, and its submission is no longer dropped. */
  lemma PublishCovers(s: State, t: Tid, how: Route)
    requires Enabled(s, Publish(t, how))
    ensures var id, r := Outgoing(s.threads[t]).value.submission, Apply(s, Publish(t, how));
            Covered(r, id) && id !in r.orphaned && r.rows == s.rows
  {
    hide Send, CanSend, Names;
    var m := Outgoing(s.threads[t]).value;
    var r := Apply(s, Publish(t, how));
    var pl := SendingCopies(s.mq, s.threads, t.proc, m, how);
    assert Copy(r.mq, r.threads, pl, m.submission);
  }

  /** The sweep of one stale row. */
  function Sweep(s: State, t: Tid, id: int): seq<Event>
    requires IsOpen(s.rows, id) && t.proc in s.mq.procs
  {
    [Select(t, [id])] + (if s.rows[id].status == Judging then [Reset(t, true, true)] else [])
    + [Publish(t, RouteOf(s.mq.procs[t.proc].backend))]
  }

  lemma SweepPublish(s: State, t: Tid, id: int)
    requires WellFormed(s) && At(s, t) && s.mq.procs[t.proc].backend != Unprobed
    requires s.threads[t].Sweeping? && |s.threads[t].todo| == 1 && !s.threads[t].todo[0].judging
    requires s.threads[t].todo[0].msg.submission == id
    ensures var es := [Publish(t, RouteOf(s.mq.procs[t.proc].backend))];
            IsRun(s, es) && Covered(After(s, es), id) && id !in After(s, es).orphaned && After(s, es).rows == s.rows
  {
    hide Send, Covered, RowsOk, ReadyOk, ProcsOk, TagsDistinct, TagOk, MqAfter, ThreadsAfter, OrphanedAfter, AcceptedAfter;
    assert ThreadOk(s.mq.procs, t, s.threads[t]);
    var how := RouteOf(s.mq.procs[t.proc].backend);
    PublishCovers(s, t, how);
    RunOne(s, Publish(t, how), []);
    assert [Publish(t, how)] + [] == [Publish(t, how)];
  }

  lemma SweepReset(s: State, t: Tid, id: int)
    requires WellFormed(s) && At(s, t) && s.mq.procs[t.proc].backend != Unprobed
    requires id in s.rows && s.rows[id].status == Judging
    requires s.threads[t].Sweeping? && s.threads[t].todo == [StaleRow(id, s.rows[id])]
    ensures var es := [Reset(t, true, true), Publish(t, RouteOf(s.mq.procs[t.proc].backend))];
            IsRun(s, es) && Covered(After(s, es), id) && id !in After(s, es).orphaned &&
            After(s, es).rows == s.rows[id := s.rows[id].(status := Pending)]
  {
    hide Covered, WellFormed, MqAfter, ThreadsAfter, OrphanedAfter, AcceptedAfter;
    var e, p := Reset(t, true, true), Publish(t, RouteOf(s.mq.procs[t.proc].backend));
    StepKeepsWellFormed(s, e);
    SweepPublish(Apply(s, e), t, id);
    RunOne(s, e, [p]);
    assert [e] + [p] == [e, p];
  }

  /** The next sweep that finds the row restores the copy, whatever was dropped: it selects
      the row, puts a JUDGING one back to PENDING and publishes; no other row changes. */
  lemma SweepRestores(s: State, t: Tid, id: int)
    requires Reachable(s) && Idle(s, t) && IsOpen(s.rows, id) && s.mq.procs[t.proc].backend != Unprobed
    ensures IsRun(s, Sweep(s, t, id))
    ensures var r := After(s, Sweep(s, t, id));
            Covered(r, id) && id !in r.orphaned && r.rows == s.rows[id := s.rows[id].(status := Pending)]
  {
    hide Covered, Reachable, WellFormed, NothingLost, RowsOfCreating, SetStatus, Recognised, MqAfter, ThreadsAfter, OrphanedAfter, AcceptedAfter;
    ReachableInv(s);
    var e := Select(t, [id]);
    StepKeepsWellFormed(s, e);
    var r := Apply(s, e);
    if s.rows[id].status == Judging {
      SweepReset(r, t, id);
      RunOne(s, e, [Reset(t, true, true), Publish(t, RouteOf(s.mq.procs[t.proc].backend))]);
      assert Sweep(s, t, id) == [e] + [Reset(t, true, true), Publish(t, RouteOf(s.mq.procs[t.proc].backend))];
    } else {
      SweepPublish(r, t, id);
      RunOne(s, e, [Publish(t, RouteOf(s.mq.procs[t.proc].backend))]);
      assert Sweep(s, t, id) == [e] + [Publish(t, RouteOf(s.mq.procs[t.proc].backend))];
      assert s.rows == s.rows[id := s.rows[id].(status := Pending)];
    }
  }
}
