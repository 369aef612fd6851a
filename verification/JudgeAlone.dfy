/** What the methods of `JudgeTask` do with nobody else at work, as runs of the delivery
    system: so that system has the runs of the code, and each of its events its effect. */
module JudgeAlone {
  import opened Wrappers
  import opened Verdict
  import opened Delivery
  import opened SubmissionStatus
  import opened JudgeTask

  ghost predicate Gives(s: State, es: seq<Event>, r: State) { IsRun(s, es) && After(s, es) == r }

  lemma Before(s: State, e: Event, es: seq<Event>, r: State)
    requires Enabled(s, e) && Gives(Apply(s, e), es, r)
    ensures Gives(s, [e] + es, r)
  {
    hide Apply, Enabled;
    assert ([e] + es)[1..] == es;
  }

  /** The state with these rows and this thread there. */
  function Moved(s: State, rows: map<int, Row>, t: Tid, pc: Pc): State {
    s.(rows := rows, threads := s.threads[t := pc])
  }

  // --------------------------------------------------------------------------- judging

  /** The event moves the thread from `pc` to `next` and leaves these rows. */
  ghost predicate Steps(s: State, t: Tid, pc: Pc, e: Event, next: Pc, rows: map<int, Row>) {
    var from := Moved(s, s.rows, t, pc);
    Enabled(from, e) && Apply(from, e) == Moved(s, rows, t, next)
  }

  lemma Stepped(s: State, t: Tid, pc: Pc, e: Event, next: Pc, rows: map<int, Row>, es: seq<Event>, r: State)
    requires Steps(s, t, pc, e, next, rows) && Gives(Moved(s, rows, t, next), es, r)
    ensures Gives(Moved(s, s.rows, t, pc), [e] + es, r)
  {
    hide Apply, Enabled, Gives;
    Before(Moved(s, s.rows, t, pc), e, es, r);
  }

  lemma StepsTo(s: State, t: Tid, pc: Pc, e: Event, next: Pc, rows: map<int, Row>)
    requires Steps(s, t, pc, e, next, rows)
    ensures Gives(Moved(s, s.rows, t, pc), [e], Moved(s, rows, t, next))
  {
    hide Apply, Enabled;
    var r := Moved(s, rows, t, next);
    assert Gives(r, [], r);
    Before(Moved(s, s.rows, t, pc), e, [], r);
    assert [e] + [] == [e];
  }

  lemma FailSteps(s: State, t: Tid, pc: Pc)
    requires t.proc in s.mq.procs && (pc.Popped? || (pc.Running? && !pc.stage.Marked?))
    ensures Steps(s, t, pc, Fail(t), Finished(pc.task, false), s.rows)
  {
    hide ReadRow, ReadConfig, ReadCases, MqAfter;
  }

  lemma LookSteps(s: State, t: Tid, task: Task)
    requires t.proc in s.mq.procs
    ensures var id := task.msg.submission;
            Steps(s, t, Popped(task), Look(t),
                  if id !in s.rows then Finished(task, false)
                  else if s.rows[id].status.Final? then Finished(task, true)
                  else if s.rows[id].language == "" || s.rows[id].code == "" then Finished(task, false)
                  else Running(task, Looked(s.rows[id].problem, s.rows[id].language, s.rows[id].code)), s.rows)
  {
    hide ReadConfig, ReadCases, MqAfter;
  }

  lemma ConfigSteps(s: State, t: Tid, task: Task, p: int, l: string, c: string)
    requires t.proc in s.mq.procs
    ensures Steps(s, t, Running(task, Looked(p, l, c)), LookConfig(t),
                  if p in s.problems.configs then Running(task, Configured(p, l, c, s.problems.configs[p]))
                  else Finished(task, false), s.rows)
  {
    hide ReadRow, ReadCases, MqAfter;
  }

  lemma CasesSteps(s: State, t: Tid, task: Task, p: int, l: string, c: string, config: Config)
    requires t.proc in s.mq.procs
    ensures Steps(s, t, Running(task, Configured(p, l, c, config)), LookCases(t),
                  if p in s.problems.cases && s.problems.cases[p] != []
                  then Running(task, Prepared(Request(l, c, config, s.problems.cases[p]))) else Finished(task, false), s.rows)
  {
    hide ReadRow, ReadConfig, MqAfter;
  }

  /** A statement that fails may still have been applied. */
  lemma MarkSteps(s: State, t: Tid, task: Task, req: Request, applied: bool, ok: bool)
    requires t.proc in s.mq.procs && task.msg.submission in s.rows && (ok ==> applied)
    ensures var id := task.msg.submission;
            Steps(s, t, Running(task, Prepared(req)), Mark(t, applied, ok),
                  if ok then Running(task, Marked(req)) else Finished(task, false),
                  if applied then s.rows[id := s.rows[id].(status := Judging)] else s.rows)
  {
    hide ReadRow, ReadConfig, ReadCases, MqAfter;
  }

  lemma ConcludeSteps(s: State, t: Tid, task: Task, req: Request, outcome: Outcome, applied: bool, ok: bool)
    requires t.proc in s.mq.procs && task.msg.submission in s.rows && (ok ==> applied) && (applied ==> Recognised(outcome))
    ensures var id := task.msg.submission;
            Steps(s, t, Running(task, Marked(req)), Conclude(t, outcome, applied, ok), Finished(task, ok),
                  if applied then s.rows[id := s.rows[id].(status := Final(outcome))] else s.rows)
  {
    hide ReadRow, ReadConfig, ReadCases, MqAfter;
  }

  /** The writes, from the prepared request on. */
  lemma PreparedEnds(s: State, t: Tid, task: Task, req: Request, outcome: Outcome, w: Weather)
      returns (es: seq<Event>, rows: map<int, Row>, done: bool)
    requires t.proc in s.mq.procs && task.msg.submission in s.rows && (outcome.Write? ==> Recognised(outcome))
    ensures Gives(Moved(s, s.rows, t, Running(task, Prepared(req))), es, Moved(s, rows, t, Finished(task, done)))
    ensures var id := task.msg.submission;
            if !w.mark then rows == s.rows && !done
            else if w.final && outcome.Write? then rows == s.rows[id := s.rows[id].(status := Final(outcome))] && done
            else rows == s.rows[id := s.rows[id].(status := Judging)] && !done
  {
    hide Gives, Steps;
    var id := task.msg.submission;
    MarkSteps(s, t, task, req, w.mark, w.mark);
    if !w.mark {
      StepsTo(s, t, Running(task, Prepared(req)), Mark(t, false, false), Finished(task, false), s.rows);
      return [Mark(t, false, false)], s.rows, false;
    }
    var marked := s.rows[id := s.rows[id].(status := Judging)];
    var m := s.(rows := marked);
    done := w.final && outcome.Write?;
    rows := if done then s.rows[id := s.rows[id].(status := Final(outcome))] else marked;
    ConcludeSteps(m, t, task, req, outcome, done, done);
    assert done ==> marked[id := marked[id].(status := Final(outcome))] == rows;
    var pc := Running(task, Marked(req));
    StepsTo(m, t, pc, Conclude(t, outcome, done, done), Finished(task, done), rows);
    assert Moved(m, rows, t, Finished(task, done)) == Moved(s, rows, t, Finished(task, done));
    assert Moved(m, marked, t, pc) == Moved(s, marked, t, pc);
    Stepped(s, t, Running(task, Prepared(req)), Mark(t, true, true), pc, marked, [Conclude(t, outcome, done, done)],
            Moved(s, rows, t, Finished(task, done)));
    es := [Mark(t, true, true)] + [Conclude(t, outcome, done, done)];
  }

  /** `run_judge_task` on an open row that has a language and code. */
  lemma LookedEnds(s: State, t: Tid, task: Task, box: Request -> Outcome, w: Weather)
      returns (es: seq<Event>, rows: map<int, Row>, done: bool)
    requires t.proc in s.mq.procs && Sound(box)
    requires IsOpen(s.rows, task.msg.submission) && task.msg.submission > 0 && w.look
    requires var row := s.rows[task.msg.submission]; row.language != "" && row.code != ""
    ensures var row := s.rows[task.msg.submission];
            Gives(Moved(s, s.rows, t, Running(task, Looked(row.problem, row.language, row.code))), es,
                  Moved(s, rows, t, Finished(task, done)))
    ensures Attempted(s.rows, rows, s.problems, box, w, task.msg.submission, done)
  {
    hide Gives, Steps;
    var row := s.rows[task.msg.submission];
    var (p, l, c) := (row.problem, row.language, row.code);
    var looked := Running(task, Looked(p, l, c));
    var end := Moved(s, s.rows, t, Finished(task, false));
    if !w.config {
      FailSteps(s, t, looked);
      StepsTo(s, t, looked, Fail(t), Finished(task, false), s.rows);
      return [Fail(t)], s.rows, false;
    }
    ConfigSteps(s, t, task, p, l, c);
    if p !in s.problems.configs {
      StepsTo(s, t, looked, LookConfig(t), Finished(task, false), s.rows);
      return [LookConfig(t)], s.rows, false;
    }
    var configured := Running(task, Configured(p, l, c, s.problems.configs[p]));
    if !w.cases {
      FailSteps(s, t, configured);
      StepsTo(s, t, configured, Fail(t), Finished(task, false), s.rows);
      Stepped(s, t, looked, LookConfig(t), configured, s.rows, [Fail(t)], end);
      return [LookConfig(t)] + [Fail(t)], s.rows, false;
    }
    CasesSteps(s, t, task, p, l, c, s.problems.configs[p]);
    if p !in s.problems.cases || s.problems.cases[p] == [] {
      StepsTo(s, t, configured, LookCases(t), Finished(task, false), s.rows);
      Stepped(s, t, looked, LookConfig(t), configured, s.rows, [LookCases(t)], end);
      return [LookConfig(t)] + [LookCases(t)], s.rows, false;
    }
    var req := Request(l, c, s.problems.configs[p], s.problems.cases[p]);
    assert RequestFor(row, s.problems) == Some(req);
    es, rows, done := PreparedEnds(s, t, task, req, box(req), w);
    end := Moved(s, rows, t, Finished(task, done));
    Stepped(s, t, configured, LookCases(t), Running(task, Prepared(req)), s.rows, es, end);
    es := [LookCases(t)] + es;
    Stepped(s, t, looked, LookConfig(t), configured, s.rows, es, end);
    es := [LookConfig(t)] + es;
  }

  /** `RunJudgeTask` is a run of the thread's own events, whichever statements fail. */
  lemma AttemptIsARun(s: State, t: Tid, box: Request -> Outcome, w: Weather)
      returns (es: seq<Event>, rows: map<int, Row>, done: bool)
    requires At(s, t) && s.threads[t].Popped? && Sound(box)
    ensures Gives(s, es, s.(rows := rows, threads := s.threads[t := Finished(s.threads[t].task, done)]))
    ensures Attempted(s.rows, rows, s.problems, box, w, s.threads[t].task.msg.submission, done)
  {
    hide Gives, Steps;
    var task := s.threads[t].task;
    var id := task.msg.submission;
    assert Moved(s, s.rows, t, Popped(task)) == s;
    if id <= 0 || !w.look {
      FailSteps(s, t, Popped(task));
      StepsTo(s, t, Popped(task), Fail(t), Finished(task, false), s.rows);
      return [Fail(t)], s.rows, false;
    }
    LookSteps(s, t, task);
    if IsOpen(s.rows, id) && s.rows[id].language != "" && s.rows[id].code != "" {
      es, rows, done := LookedEnds(s, t, task, box, w);
      Stepped(s, t, Popped(task), Look(t), Running(task, Looked(s.rows[id].problem, s.rows[id].language, s.rows[id].code)),
              s.rows, es, Moved(s, rows, t, Finished(task, done)));
      es := [Look(t)] + es;
    } else {
      done := IsFinal(s.rows, id);
      rows := s.rows;
      StepsTo(s, t, Popped(task), Look(t), Finished(task, done), s.rows);
      es := [Look(t)];
    }
  }

  /** The acknowledgement after it; a failed attempt is recorded as dropped. */
  lemma AckIsARun(s: State, t: Tid)
    requires At(s, t) && s.threads[t].Finished?
    ensures var task := s.threads[t].task;
            Gives(s, [Ack(t)], s.(mq := Acknowledge(s.mq, t.proc, task.tag), threads := s.threads - {t},
                                  orphaned := if s.threads[t].done then s.orphaned else s.orphaned + {task.msg.submission}))
  {
    hide Acknowledge;
    Single(s, Ack(t));
  }

  lemma Single(s: State, e: Event)
    requires Enabled(s, e)
    ensures Gives(s, [e], Apply(s, e))
  {
    hide Apply, Enabled;
    var r := Apply(s, e);
    assert Gives(r, [], r);
    Before(s, e, [], r);
    assert [e] + [] == [e];
  }

  lemma Two(s: State, e: Event, f: Event)
    requires Enabled(s, e) && Enabled(Apply(s, e), f)
    ensures Gives(s, [e, f], Apply(Apply(s, e), f))
  {
    hide Apply, Enabled, Gives;
    Single(Apply(s, e), f);
    Before(s, e, [f], Apply(Apply(s, e), f));
    assert [e] + [f] == [e, f];
  }

  // ------------------------------------------------------------------------- publishing

  /** `create_submission`. */
  lemma CreateIsARun(s: State, t: Tid, id: int, row: Row, how: Route)
    requires t !in s.threads && CanSend(s.mq, t.proc, how) && id > 0 && id !in s.rows
    requires row.status == Pending && row.problem > 0 && row.language != "" && row.code != ""
    ensures Gives(s, [Insert(t, id, row, true), Publish(t, how)],
                  s.(rows := s.rows[id := row], accepted := s.accepted + {id}, orphaned := s.orphaned - {id},
                     mq := Send(s.mq, t.proc, TaskMessage(id, row.problem, row.language), how)))
  {
    hide Send, Acknowledge, Deliver, Bodies;
    var e, f := Insert(t, id, row, true), Publish(t, how);
    assert Apply(s, e) == s.(rows := s.rows[id := row],
                             threads := s.threads[t := Creating(TaskMessage(id, row.problem, row.language))]);
    assert s.threads[t := Creating(TaskMessage(id, row.problem, row.language))] - {t} == s.threads;
    Two(s, e, f);
  }

  /** An INSERT that reports a failure leaves the row or not, and no message. */
  lemma InsertUnanswered(s: State, t: Tid, id: int, row: Row)
    requires Idle(s, t) && id > 0 && id !in s.rows
    requires row.status == Pending && row.problem > 0 && row.language != "" && row.code != ""
    ensures Gives(s, [Insert(t, id, row, false)], s.(rows := s.rows[id := row]))
  {
    Single(s, Insert(t, id, row, false));
    assert s.threads - {t} == s.threads;
  }

  /** A deferral. */
  lemma DeferIsARun(s: State, t: Tid, how: Route)
    requires At(s, t) && s.threads[t].Popped? && Valid(s.threads[t].task.msg) && CanSend(s.mq, t.proc, how)
    ensures var task := s.threads[t].task;
            Gives(s, [Publish(t, how), Ack(t)],
                  s.(mq := Acknowledge(Send(s.mq, t.proc, task.msg, how), t.proc, task.tag), threads := s.threads - {t},
                     orphaned := s.orphaned - {task.msg.submission}))
  {
    hide Acknowledge, Encode, Bodies;
    var task := s.threads[t].task;
    assert Apply(s, Publish(t, how)) == s.(mq := Send(s.mq, t.proc, task.msg, how), threads := s.threads[t := Deferred(task)],
                                           orphaned := s.orphaned - {task.msg.submission});
    assert s.threads[t := Deferred(task)] - {t} == s.threads - {t};
    Two(s, Publish(t, how), Ack(t));
  }

  /** The state with a reclaimer that has this row left. */
  function Reclaiming(s: State, rows: map<int, Row>, t: Tid, m: TaskMessage, judging: bool): State {
    s.(rows := rows, threads := s.threads[t := Sweeping([Stale(m, judging)])])
  }

  lemma SelectOne(s: State, t: Tid, id: int)
    requires Idle(s, t) && IsOpen(s.rows, id)
    ensures Enabled(s, Event.Select(t, [id]))
    ensures Apply(s, Event.Select(t, [id]))
         == Reclaiming(s, s.rows, t, MessageFor(s.rows, id), s.rows[id].status == Judging)
  {
    hide ReadRow, ReadConfig, ReadCases, MqAfter;
    var todo := Selected(s.rows, [id]);
    assert todo == [todo[0]] && todo[0] == StaleRow(id, s.rows[id]);
  }

  /** A statement that fails may still have been applied. */
  lemma ResetOne(s: State, t: Tid, m: TaskMessage, applied: bool, ok: bool)
    requires Idle(s, t) && m.submission in s.rows && s.rows[m.submission].status == Judging && (ok ==> applied)
    ensures var (k, id) := (Reclaiming(s, s.rows, t, m, true), m.submission);
            var rows := if applied then s.rows[id := s.rows[id].(status := Pending)] else s.rows;
            Enabled(k, Reset(t, applied, ok)) && (forall how :: !Enabled(k, Publish(t, how))) &&
            Apply(k, Reset(t, applied, ok)) == if ok then Reclaiming(s, rows, t, m, false) else s.(rows := rows)
  {
    hide ReadRow, ReadConfig, ReadCases, MqAfter;
    var k := Reclaiming(s, s.rows, t, m, true);
    assert k.threads - {t} == s.threads;
    assert [Stale(m, true).(judging := false)] + [Stale(m, true)][1..] == [Stale(m, false)];
  }

  lemma PublishOne(s: State, rows: map<int, Row>, t: Tid, m: TaskMessage, how: Route)
    requires Idle(s, t) && Valid(m) && CanSend(s.mq, t.proc, how)
    ensures var k := Reclaiming(s, rows, t, m, false);
            Enabled(k, Publish(t, how)) &&
            Apply(k, Publish(t, how)) ==
              s.(rows := rows, orphaned := s.orphaned - {m.submission}, mq := Send(s.mq, t.proc, m, how))
  {
    hide Send, Bodies;
    assert Reclaiming(s, rows, t, m, false).threads - {t} == s.threads;
  }

  /** One turn of the reclaimer's loop: a row that is JUDGING is reset before it is published. */
  lemma ReclaimIsARun(s: State, t: Tid, id: int, writes: bool, how: Route) returns (es: seq<Event>)
    requires t !in s.threads && CanSend(s.mq, t.proc, how) && IsOpen(s.rows, id)
    requires Valid(MessageFor(s.rows, id))
    ensures Gives(s, es, if s.rows[id].status == Judging && !writes then s
                         else s.(rows := s.rows[id := s.rows[id].(status := Pending)], orphaned := s.orphaned - {id},
                                 mq := Send(s.mq, t.proc, MessageFor(s.rows, id), how)))
    ensures exists i :: 0 <= i < |es| && es[i] == Event.Select(t, [id])
    ensures s.rows[id].status == Judging ==> exists i :: 0 <= i < |es| && es[i] == Reset(t, writes, writes)
  {
    hide Apply, Enabled, Send, Gives, Valid;
    var m := MessageFor(s.rows, id);
    var judging := s.rows[id].status == Judging;
    var e, f, g := Event.Select(t, [id]), Reset(t, writes, writes), Publish(t, how);
    var rows := s.rows[id := s.rows[id].(status := Pending)];
    SelectOne(s, t, id);
    PublishOne(s, rows, t, m, how);
    if judging {
      ResetOne(s, t, m, writes, writes);
      if !writes {
        Two(s, e, f);
        es := [e, f];
        assert es[0] == e && es[1] == f;
      } else {
        Two(Apply(s, e), f, g);
        es := [e] + [f, g];
        Before(s, e, [f, g], Apply(Apply(Apply(s, e), f), g));
        assert es[0] == e && es[1] == f;
      }
    } else {
      assert rows == s.rows;
      Two(s, e, g);
      es := [e, g];
      assert es[0] == e;
    }
  }

  // ---------------------------------------------------------------------------- mishaps

  /** A process can start, and lose its connection in either way; what it had not
      acknowledged is then ready again. */
  lemma LinksFail(s: State, p: nat)
    ensures p !in s.mq.procs ==>
              Enabled(s, Start(p)) &&
              Apply(s, Start(p)) == s.(mq := Mq(s.mq.ready, s.mq.procs[p := Proc(Unprobed, [], 1, map[])]))
    ensures p in s.mq.procs && s.mq.procs[p].backend == Rabbit(true) ==>
              var was := s.mq.procs[p];
              Enabled(s, LinkDown(p)) && Enabled(s, CallFails(p)) &&
              Apply(s, LinkDown(p)) ==
                s.(mq := Mq(s.mq.ready + Bodies(was.unacked),
                            s.mq.procs[p := Proc(Rabbit(false), was.queue, was.nextTag, map[])])) &&
              Apply(s, CallFails(p)) ==
                s.(mq := Mq(s.mq.ready + Bodies(was.unacked), s.mq.procs[p := Proc(Local, was.queue, was.nextTag, map[])]))
  {
    hide Bodies;
  }

  /** A problem can be edited or deleted at any time. */
  lemma ProblemsChange(s: State, problem: int, config: Option<Config>, cases: seq<TestCase>)
    ensures var e := Edit(problem, config, cases);
            Enabled(s, e) &&
            Apply(s, e) == s.(problems := Problems(if config == None then s.problems.configs - {problem}
                                                   else s.problems.configs[problem := config.value],
                                                   s.problems.cases[problem := cases]))
  {
  }

  /** A crash takes the process, its threads and its own queue; dropped is what was queued
      there, and what its consumers were answering for unless the broker still has it. */
  lemma CrashDrops(s: State, p: nat, id: int)
    requires p in s.mq.procs
    ensures Enabled(s, Crash(p))
    ensures var r := Apply(s, Crash(p));
            r.rows == s.rows && r.mq == Mq(s.mq.ready + Bodies(s.mq.procs[p].unacked), s.mq.procs - {p}) &&
            (forall t :: t in r.threads <==> t in s.threads && t.proc != p) &&
            (forall t :: t in r.threads ==> r.threads[t] == s.threads[t])
    ensures id in Apply(s, Crash(p)).orphaned <==>
              id in s.orphaned || (exists m :: m in s.mq.procs[p].queue && m.submission == id) ||
              exists t :: t in s.threads && t.proc == p && Answers(s.threads[t], id) &&
                          (s.threads[t].task.tag == 0 || s.mq.procs[p].backend != Rabbit(true))
  {
    hide Bodies;
  }
}
