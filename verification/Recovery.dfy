/** Recovery: from any reachable state in which no thread is at work, every sweep that finds
    the open rows, followed by every drain of the queue through `run_judge_task`, gives each
    submission that can be judged its verdict and leaves the others alone. */
module Recovery {
  import opened Wrappers
  import opened Verdict
  import opened Delivery
  import opened DeliverySafety
  import opened SubmissionStatus
  import opened Settling
  import opened Draining

  // ------------------------------------------------------------------ one task, on rows

  /** `run_judge_task` with nothing failing. */
  function JudgedRow(row: Row, ps: Problems, verdict: Request -> Outcome): Row {
    if row.status.Final? || RequestFor(row, ps).None? then row
    else
      var w := verdict(RequestFor(row, ps).value);
      row.(status := if w.Write? then Final(w) else Judging)
  }

  function JudgeOne(rows: map<int, Row>, ps: Problems, verdict: Request -> Outcome, id: int): map<int, Row> {
    if id in rows then rows[id := JudgedRow(rows[id], ps, verdict)] else rows
  }

  // --------------------------------------------------------------- one task, as events

  /** Only steps of the thread's own judging, and its acknowledgement. */
  predicate OwnStep(e: Event, t: Tid) {
    (e.Look? || e.LookConfig? || e.LookCases? || e.Mark? || e.Conclude? || e.Ack?) && e.t == t
  }

  ghost predicate OwnRun(s: State, t: Tid, es: seq<Event>, verdict: Request -> Outcome) {
    IsRun(s, es) && SmoothRun(s, es, verdict) && forall i :: 0 <= i < |es| ==> OwnStep(es[i], t)
  }

  /** The run ends the thread's task with these rows and changes nothing else but the
      acknowledgement. */
  ghost predicate Ends(s: State, t: Tid, es: seq<Event>, rows: map<int, Row>, verdict: Request -> Outcome)
    requires At(s, t) && HasTask(s.threads[t])
  {
    OwnRun(s, t, es, verdict) &&
    var r := After(s, es);
    r.rows == rows && r.problems == s.problems && r.threads == s.threads - {t} &&
    r.mq == Acknowledge(s.mq, t.proc, s.threads[t].task.tag)
  }

  lemma SmoothOne(s: State, e: Event, es: seq<Event>, verdict: Request -> Outcome)
    requires Enabled(s, e) && Smooth(s, e, verdict) && IsRun(Apply(s, e), es) && SmoothRun(Apply(s, e), es, verdict)
    ensures IsRun(s, [e] + es) && After(s, [e] + es) == After(Apply(s, e), es) && SmoothRun(s, [e] + es, verdict)
  {
    hide Apply, Enabled, Smooth;
    RunOne(s, e, es);
    assert ([e] + es)[1..] == es;
  }

  lemma Prepend(s: State, t: Tid, e: Event, es: seq<Event>, rows: map<int, Row>, verdict: Request -> Outcome)
    requires At(s, t) && HasTask(s.threads[t]) && MovesThread(e) && CanMove(s, e) && OwnStep(e, t) && Smooth(s, e, verdict)
    requires Next(s, e).Some? && HasTask(Next(s, e).value) && Next(s, e).value.task == s.threads[t].task
    requires Ends(s.(rows := Written(s, e), threads := Put(s.threads, t, Next(s, e))), t, es, rows, verdict)
    ensures Ends(s, t, [e] + es, rows, verdict)
  {
    hide Next, Written, CanMove, Acknowledge, Smooth;
    var r := Apply(s, e);
    assert r == s.(rows := Written(s, e), threads := Put(s.threads, t, Next(s, e)));
    assert r.threads - {t} == s.threads - {t};
    hide Apply, OwnStep;
    SmoothOne(s, e, es, verdict);
  }

  lemma EndFinished(s: State, t: Tid, verdict: Request -> Outcome)
    requires At(s, t) && s.threads[t].Finished?
    ensures Ends(s, t, [Ack(t)], s.rows, verdict)
  {
    SmoothOne(s, Ack(t), [], verdict);
    assert [Ack(t)] + [] == [Ack(t)];
  }

  lemma EndMarked(s: State, t: Tid, verdict: Request -> Outcome) returns (es: seq<Event>)
    requires At(s, t) && Sound(verdict) && s.threads[t].Running? && s.threads[t].stage.Marked?
    ensures var w := verdict(s.threads[t].stage.req);
            Ends(s, t, es, if w.Write? then SetStatus(s.rows, s.threads[t].task.msg.submission, Final(w)) else s.rows, verdict)
  {
    var w := verdict(s.threads[t].stage.req);
    var e := Conclude(t, w, w.Write?, w.Write?);
    var r := s.(rows := Written(s, e), threads := Put(s.threads, t, Next(s, e)));
    EndFinished(r, t, verdict);
    Prepend(s, t, e, [Ack(t)], r.rows, verdict);
    es := [e] + [Ack(t)];
  }

  lemma EndPrepared(s: State, t: Tid, verdict: Request -> Outcome) returns (es: seq<Event>)
    requires At(s, t) && Sound(verdict) && s.threads[t].Running? && s.threads[t].stage.Prepared?
    ensures var w := verdict(s.threads[t].stage.req);
            Ends(s, t, es, SetStatus(s.rows, s.threads[t].task.msg.submission, if w.Write? then Final(w) else Judging), verdict)
  {
    hide Ends, Recognised;
    var e := Mark(t, true, true);
    var r := s.(rows := Written(s, e), threads := Put(s.threads, t, Next(s, e)));
    var w, id := verdict(s.threads[t].stage.req), s.threads[t].task.msg.submission;
    var rest := EndMarked(r, t, verdict);
    var rows := SetStatus(s.rows, id, if w.Write? then Final(w) else Judging);
    assert rows == if w.Write? then SetStatus(r.rows, id, Final(w)) else r.rows;
    Prepend(s, t, e, rest, rows, verdict);
    es := [e] + rest;
  }

  lemma EndConfigured(s: State, t: Tid, verdict: Request -> Outcome, row: Row) returns (es: seq<Event>)
    requires At(s, t) && Sound(verdict) && s.threads[t].Running? && !row.status.Final? && row.language != "" && row.code != ""
    requires row.problem in s.problems.configs
    requires s.threads[t].stage == Configured(row.problem, row.language, row.code, s.problems.configs[row.problem])
    requires s.threads[t].task.msg.submission in s.rows && row == s.rows[s.threads[t].task.msg.submission]
    ensures Ends(s, t, es, JudgeOne(s.rows, s.problems, verdict, s.threads[t].task.msg.submission), verdict)
  {
    hide Ends, Recognised;
    var e := LookCases(t);
    var id := s.threads[t].task.msg.submission;
    var rows := JudgeOne(s.rows, s.problems, verdict, id);
    var r := s.(rows := Written(s, e), threads := Put(s.threads, t, Next(s, e)));
    if r.threads[t].Running? {
      var rest := EndPrepared(r, t, verdict);
      Prepend(s, t, e, rest, rows, verdict);
      es := [e] + rest;
    } else {
      EndFinished(r, t, verdict);
      assert rows == s.rows;
      Prepend(s, t, e, [Ack(t)], rows, verdict);
      es := [e] + [Ack(t)];
    }
  }

  lemma EndLooked(s: State, t: Tid, verdict: Request -> Outcome, row: Row) returns (es: seq<Event>)
    requires At(s, t) && Sound(verdict) && s.threads[t].Running? && !row.status.Final? && row.language != "" && row.code != ""
    requires s.threads[t].stage == Looked(row.problem, row.language, row.code)
    requires s.threads[t].task.msg.submission in s.rows && row == s.rows[s.threads[t].task.msg.submission]
    ensures Ends(s, t, es, JudgeOne(s.rows, s.problems, verdict, s.threads[t].task.msg.submission), verdict)
  {
    hide Ends, Recognised;
    var e := LookConfig(t);
    var id := s.threads[t].task.msg.submission;
    var rows := JudgeOne(s.rows, s.problems, verdict, id);
    var r := s.(rows := Written(s, e), threads := Put(s.threads, t, Next(s, e)));
    if r.threads[t].Running? {
      var rest := EndConfigured(r, t, verdict, row);
      Prepend(s, t, e, rest, rows, verdict);
      es := [e] + rest;
    } else {
      EndFinished(r, t, verdict);
      assert rows == s.rows;
      Prepend(s, t, e, [Ack(t)], rows, verdict);
      es := [e] + [Ack(t)];
    }
  }

  /** A popped task can be carried through, and then its row is judged. */
  lemma EndSomehow(s: State, t: Tid, verdict: Request -> Outcome) returns (es: seq<Event>)
    requires At(s, t) && Sound(verdict) && s.threads[t].Popped?
    ensures Ends(s, t, es, JudgeOne(s.rows, s.problems, verdict, s.threads[t].task.msg.submission), verdict)
  {
    hide Ends, Recognised;
    var e := Look(t);
    var id := s.threads[t].task.msg.submission;
    var rows := JudgeOne(s.rows, s.problems, verdict, id);
    var r := s.(rows := Written(s, e), threads := Put(s.threads, t, Next(s, e)));
    if r.threads[t].Running? {
      var rest := EndLooked(r, t, verdict, s.rows[id]);
      Prepend(s, t, e, rest, rows, verdict);
      es := [e] + rest;
    } else {
      EndFinished(r, t, verdict);
      assert rows == s.rows;
      Prepend(s, t, e, [Ack(t)], rows, verdict);
      es := [e] + [Ack(t)];
    }
  }

  /** Every step of its own is forced. */
  lemma OnlyStep(s: State, t: Tid, e: Event, f: Event, verdict: Request -> Outcome)
    requires Enabled(s, e) && OwnStep(e, t) && Smooth(s, e, verdict)
    requires Enabled(s, f) && OwnStep(f, t) && Smooth(s, f, verdict)
    ensures e == f
  {
    assert forall w :: Recognised(w) ==> w.Write?;
    hide Recognised;
  }

  lemma OwnRunTail(s: State, t: Tid, es: seq<Event>, verdict: Request -> Outcome)
    requires OwnRun(s, t, es, verdict) && es != []
    ensures Enabled(s, es[0]) && OwnStep(es[0], t) && Smooth(s, es[0], verdict) && OwnRun(Apply(s, es[0]), t, es[1..], verdict)
    ensures After(s, es) == After(Apply(s, es[0]), es[1..])
  {
    hide Apply, Enabled, Smooth, OwnStep;
    forall i | 0 <= i < |es[1..]| ensures OwnStep(es[1..][i], t) {
      assert es[1..][i] == es[i + 1];
    }
  }

  /** So two runs of its own to the end of the task are the same. */
  lemma {:induction false} OwnRunsAgree(s: State, t: Tid, es: seq<Event>, fs: seq<Event>, verdict: Request -> Outcome)
    requires OwnRun(s, t, es, verdict) && t !in After(s, es).threads
    requires OwnRun(s, t, fs, verdict) && t !in After(s, fs).threads
    ensures es == fs
    decreases |es|
  {
    hide Apply, Smooth, OwnRun;
    if t !in s.threads {
      IdleOwnRun(s, t, es, verdict);
      IdleOwnRun(s, t, fs, verdict);
    } else {
      assert es != [] && fs != [];
      OwnRunTail(s, t, es, verdict);
      OwnRunTail(s, t, fs, verdict);
      OnlyStep(s, t, es[0], fs[0], verdict);
      OwnRunsAgree(Apply(s, es[0]), t, es[1..], fs[1..], verdict);
      assert es == [es[0]] + es[1..] && fs == [fs[0]] + fs[1..];
    }
  }

  lemma IdleOwnRun(s: State, t: Tid, es: seq<Event>, verdict: Request -> Outcome)
    requires OwnRun(s, t, es, verdict) && t !in s.threads
    ensures es == []
  {
    if es != [] {
      OwnRunTail(s, t, es, verdict);
    }
  }

  /** A popped task that is carried through without a failure ends with its row judged and
      nothing else changed but the acknowledgement. */
  lemma EndPopped(s: State, t: Tid, es: seq<Event>, verdict: Request -> Outcome)
    requires At(s, t) && Sound(verdict) && s.threads[t].Popped?
    requires OwnRun(s, t, es, verdict) && t !in After(s, es).threads
    ensures Ends(s, t, es, JudgeOne(s.rows, s.problems, verdict, s.threads[t].task.msg.submission), verdict)
  {
    hide OwnRun, JudgeOne, Recognised;
    var fs := EndSomehow(s, t, verdict);
    OwnRunsAgree(s, t, es, fs, verdict);
  }

  /** Judging a judged row again changes nothing, so duplicates do no harm. */
  lemma JudgedTwice(row: Row, ps: Problems, verdict: Request -> Outcome)
    ensures JudgedRow(JudgedRow(row, ps, verdict), ps, verdict) == JudgedRow(row, ps, verdict)
  {
    assert forall st :: RequestFor(row.(status := st), ps) == RequestFor(row, ps);
  }

  /** The rows after the messages have been worked off one after the other. */
  function JudgeAll(rows: map<int, Row>, ps: Problems, verdict: Request -> Outcome, ms: seq<TaskMessage>): map<int, Row>
    decreases |ms|
  {
    if ms == [] then rows else JudgeAll(JudgeOne(rows, ps, verdict, ms[0].submission), ps, verdict, ms[1..])
  }

  predicate Mentions(ms: seq<TaskMessage>, id: int) { exists i :: 0 <= i < |ms| && ms[i].submission == id }

  lemma MentionsCons(ms: seq<TaskMessage>, id: int)
    requires ms != []
    ensures Mentions(ms, id) <==> ms[0].submission == id || Mentions(ms[1..], id)
  {
    if i :| 0 <= i < |ms| && ms[i].submission == id {
      assert i > 0 ==> ms[1..][i - 1] == ms[i];
    }
    if i :| 0 <= i < |ms[1..]| && ms[1..][i].submission == id {
      assert ms[i + 1] == ms[1..][i];
    }
  }

  /** Judging a row again changes nothing, so only whether a row is mentioned matters. */
  lemma {:induction false} JudgeAllIs(rows: map<int, Row>, ps: Problems, verdict: Request -> Outcome, ms: seq<TaskMessage>, id: int)
    requires id in rows
    ensures id in JudgeAll(rows, ps, verdict, ms)
    ensures JudgeAll(rows, ps, verdict, ms)[id] == (if Mentions(ms, id) then JudgedRow(rows[id], ps, verdict) else rows[id])
    decreases |ms|
  {
    hide RequestFor;
    if ms != [] {
      hide Mentions;
      JudgedTwice(rows[id], ps, verdict);
      JudgeAllIs(JudgeOne(rows, ps, verdict, ms[0].submission), ps, verdict, ms[1..], id);
      MentionsCons(ms, id);
    }
  }

  // ------------------------------------------------------------------ sweep and drain

  /** Whatever a sweep is mixed with: once no reclaimer is at work any more, each row it
      found that can be judged is final or has a copy on its way. */
  lemma SweepAll(s: State, es: seq<Event>, verdict: Request -> Outcome)
    requires Reachable(s) && s.threads == map[] && IsRun(s, es) && SmoothRun(s, es, verdict)
    requires forall t :: t in After(s, es).threads ==> !After(s, es).threads[t].Sweeping?
    ensures var r := After(s, es);
            forall id :: Mentioned(es, id) && Judgeable(s, id, verdict) ==> IsFinal(r.rows, id) || Covered(r, id)
  {
    hide Reachable, WellFormed, IsRun, After, SmoothRun, Covered, Mentioned, NothingLost, RowsOfCreating, Judgeable, IsFinal;
    ReachableInv(s);
    var r := After(s, es);
    forall id | Mentioned(es, id) && Judgeable(s, id, verdict) ensures IsFinal(r.rows, id) || Covered(r, id) {
      RunKeeps(s, es, id, verdict);
    }
  }

  /** Every recovery settles every row.  Take any run from a reachable state without threads
      in which no statement fails and no process crashes, in which the reclaimer finds every
      open row of which no copy is waiting, and which has come to rest: then each row that
      was final is as it was, each that can be judged has its verdict, and the others are
      still open.  Whatever else the run did makes no difference. */
  lemma Recovered(s: State, es: seq<Event>, verdict: Request -> Outcome)
    requires Reachable(s) && s.threads == map[] && IsRun(s, es) && SmoothRun(s, es, verdict) && Quiet(After(s, es))
    requires forall id :: IsOpen(s.rows, id) ==> Covered(s, id) || Mentioned(es, id)
    ensures var r := After(s, es);
            forall id :: id in s.rows ==> id in r.rows && Settled(s.rows[id], r.rows[id], s.problems, verdict)
  {
    hide Reachable, WellFormed, IsRun, After, SmoothRun, Quiet, Covered, Mentioned, Settled, NothingLost, RowsOfCreating;
    ReachableInv(s);
    forall id | id in s.rows ensures id in After(s, es).rows && Settled(s.rows[id], After(s, es).rows[id], s.problems, verdict) {
      RowSettles(s, es, id, verdict);
    }
  }

  /** A drain exists, and it needs no failure. */
  lemma {:induction false} Drain(s: State, p: nat, verdict: Request -> Outcome) returns (es: seq<Event>)
    requires WellFormed(s) && Served(s.mq, p) && Sound(verdict)
    ensures IsRun(s, es) && SmoothRun(s, es, verdict) && AllWorking(s, es) && Quiet(After(s, es))
    decreases Load(s)
  {
    hide WellFormed, Apply, Enabled, Smooth, Working, Quiet, Served, Load, Recognised;
    if Quiet(s) {
      es := [];
    } else {
      var e := DrainGoesOn(s, verdict, p);
      StepUses(s, e);
      StaysServed(s, e, p);
      StepKeepsWellFormed(s, e);
      var rest := Drain(Apply(s, e), p, verdict);
      SmoothOne(s, e, rest, verdict);
      es := [e] + rest;
      assert es[1..] == rest;
    }
  }

  lemma ListOf(ids: set<int>) returns (list: seq<int>)
    ensures forall i :: 0 <= i < |list| ==> list[i] in ids
    ensures forall id :: id in ids ==> id in list
    decreases ids
  {
    if id :| id in ids {
      var rest := ListOf(ids - {id});
      list := [id] + rest;
    } else {
      list := [];
    }
  }

  /** Recovery is possible wherever somebody serves the broker's queue, or there is none: the
      sweep of all open rows and a drain. */
  lemma Recoverable(s: State, p: nat, verdict: Request -> Outcome) returns (es: seq<Event>)
    requires Reachable(s) && s.threads == map[] && p in s.mq.procs && Served(s.mq, p) && Sound(verdict)
    ensures IsRun(s, es) && SmoothRun(s, es, verdict) && Quiet(After(s, es))
    ensures forall id :: IsOpen(s.rows, id) ==> Mentioned(es, id)
  {
    hide Reachable, WellFormed, Apply, Quiet, Served, NothingLost, RowsOfCreating, Recognised;
    ReachableInv(s);
    var found := set id | id in s.rows && IsOpen(s.rows, id);
    var ids := ListOf(found);
    assert forall id :: IsOpen(s.rows, id) ==> id in found;
    if ids == [] {
      es := Drain(s, p, verdict);
    } else {
      var e := Select(Tid(p, 0), ids);
      assert forall i :: 0 <= i < |ids| ==> ids[i] in found;
      assert Enabled(s, e) && Smooth(s, e, verdict);
      StepKeepsWellFormed(s, e);
      assert Apply(s, e).mq == s.mq by { SelectKeepsMq(s, e); }
      hide Enabled, Smooth;
      var rest := Drain(Apply(s, e), p, verdict);
      SmoothOne(s, e, rest, verdict);
      es := [e] + rest;
      assert es[0] == e;
    }
  }

  lemma SelectKeepsMq(s: State, e: Event)
    requires Enabled(s, e) && e.Select?
    ensures Apply(s, e).mq == s.mq
  {
  }
}
