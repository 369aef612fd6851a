/** `create_submission` of nl-submit/src/module.cpp, `run_judge_task` and
    `reclaim_stale_judging` of nl-judge/src/module.cpp and a round of `JudgeNode::run` of
    nl-judge/src/node.cpp as methods on the submission table and one process's queue, with no
    other thread in between. */
module JudgeTask {
  import opened Wrappers
  import opened Verdict
  import opened Delivery
  import opened DeliverySafety
  import opened SubmissionStatus
  import opened Recovery
  import JudgeQueue

  /** Which of the statements of `run_judge_task` reach the database. */
  datatype Weather = Weather(look: bool, config: bool, cases: bool, mark: bool, final: bool)

  const CLEAR := Weather(true, true, true, true, true)

  /** What `run_judge_task` has done to the rows when it returns `done`: it gets as far as its
      statements do, and only a verdict written, now or before, is a success. */
  predicate Attempted(before: map<int, Row>, after: map<int, Row>, ps: Problems, box: Request -> Outcome, w: Weather,
                      id: int, done: bool)
  {
    if id <= 0 || !w.look || id !in before then after == before && !done
    else if before[id].status.Final? then after == before && done
    else
      var req := RequestFor(before[id], ps);
      if req.None? || !w.config || !w.cases || !w.mark then after == before && !done
      else if w.final && box(req.value).Write? then
        after == before[id := before[id].(status := Final(box(req.value)))] && done
      else after == before[id := before[id].(status := Judging)] && !done
  }

  class Judge {
    var rows: map<int, Row>
    var problems: Problems
    const queue: JudgeQueue.Queue

    constructor (rows: map<int, Row>, problems: Problems, queue: JudgeQueue.Queue)
      ensures this.rows == rows && this.problems == problems && this.queue == queue
    {
      this.rows, this.problems, this.queue := rows, problems, queue;
    }

    /** Returns 1 only with a verdict in the row; what was final stays; no other row is
        touched; and with every statement succeeding the row is judged. */
    method RunJudgeTask(id: int, box: Request -> Outcome, w: Weather) returns (done: bool)
      requires Sound(box)
      modifies this`rows
      ensures done ==> IsFinal(rows, id)
      ensures rows != old(rows) && IsFinal(rows, id) ==> Recognised(rows[id].status.outcome)
      ensures IsFinal(old(rows), id) ==> rows == old(rows)
      ensures rows.Keys == old(rows).Keys && forall k :: k in rows && k != id ==> rows[k] == old(rows)[k]
      ensures Attempted(old(rows), rows, problems, box, w, id, done)
      ensures w == CLEAR && id > 0 ==> rows == JudgeOne(old(rows), problems, box, id) && (done <==> IsFinal(rows, id))
    {
      if id <= 0 || !w.look || id !in rows {
        return false;
      }
      var row := rows[id];
      if row.status.Final? {
        return true;
      }
      if row.language == "" || row.code == "" {
        return false;
      }
      if !w.config || row.problem !in problems.configs {
        return false;
      }
      var config := problems.configs[row.problem];
      if !w.cases || row.problem !in problems.cases || problems.cases[row.problem] == [] {
        return false;
      }
      var req := Request(row.language, row.code, config, problems.cases[row.problem]);
      if !w.mark {
        return false;
      }
      rows := SetStatus(rows, id, Judging);
      var outcome := box(req);
      if outcome.NoWrite? || !w.final {
        return false;
      }
      rows := SetStatus(rows, id, Final(outcome));
      return true;
    }

    /** One turn of the loop of `reclaim_stale_judging`; `writes` tells whether the guarded
        UPDATE succeeds. */
    method ReclaimOne(id: int, writes: bool, connects: bool, sends: bool) returns (sent: bool)
      requires queue.Consistent() && (sends && queue.useRabbit ==> queue.standing)
      requires RowsOk(rows) && IsOpen(rows, id)
      modifies this`rows, queue
      ensures queue.Consistent() && (sends && queue.useRabbit ==> queue.standing)
      ensures sent == (old(rows)[id].status == Judging ==> writes)
      ensures rows == if sent then SetStatus(old(rows), id, Pending) else old(rows)
      ensures queue.View() == if sent then SendOne(old(queue.View()), MessageFor(old(rows), id), connects, sends)
                              else old(queue.View())
    {
      hide RouteFor, Send, Encode;
      assert RowOk(rows[id]);
      var row := rows[id];
      if row.status == Judging {
        if !writes {
          return false;
        }
        rows := SetStatus(rows, id, Pending);
      } else {
        assert SetStatus(rows, id, Pending) == rows;
      }
      sent := queue.Publish(TaskMessage(id, row.problem, row.language), connects, sends);
    }

    /** `stale` is what the SELECT returns; `sends` tells whether the broker takes what is
        published. */
    method ReclaimStaleJudging(stale: seq<int>, writes: int -> bool, connects: bool, sends: bool) returns (reclaimed: nat)
      requires queue.Consistent() && (sends && queue.useRabbit ==> queue.standing)
      requires RowsOk(rows) && Selectable(rows, stale)
      modifies this`rows, queue
      ensures queue.Consistent() && Ready(old(queue.View()), sends)
      ensures rows == ResetAll(old(rows), stale, writes)
      ensures reclaimed == |Published(old(rows), stale, writes)|
      ensures queue.View() == SendAll(old(queue.View()), Published(old(rows), stale, writes), connects, sends)
    {
      hide SendOne, SendAll, MessageFor;
      ghost var before, start := rows, queue.View();
      reclaimed := 0;
      assert start == SendAll(start, [], connects, sends) by { SendNone(start, connects, sends); }
      for i := 0 to |stale|
        invariant queue.Consistent() && (sends && queue.useRabbit ==> queue.standing)
        invariant RowsOk(rows) && rows == ResetAll(before, stale[..i], writes)
        invariant reclaimed == |Published(before, stale[..i], writes)|
        invariant queue.View() == SendAll(start, Published(before, stale[..i], writes), connects, sends)
      {
        var id := stale[i];
        assert stale[..i + 1][..i] == stale[..i];
        Untouched(before, stale, i, writes);
        SendOneMore(start, Published(before, stale[..i], writes), MessageFor(before, id), connects, sends);
        MessageStays(before, rows, id);
        var sent := ReclaimOne(id, writes(id), connects, sends);
        if sent {
          reclaimed := reclaimed + 1;
        }
      }
      assert stale[..|stale|] == stale;
    }
  }

  function MessageFor(rows: map<int, Row>, id: int): TaskMessage
    requires id in rows
  {
    TaskMessage(id, rows[id].problem, rows[id].language)
  }

  lemma MessageStays(before: map<int, Row>, now: map<int, Row>, id: int)
    requires id in before && id in now && now[id] == before[id]
    ensures MessageFor(now, id) == MessageFor(before, id)
  {
  }

  lemma SendNone(q: Mq, connects: bool, sends: bool)
    requires 0 in q.procs
    ensures SendAll(q, [], connects, sends) == q
  {
  }

  /** The rows a SELECT can return. */
  ghost predicate Selectable(rows: map<int, Row>, ids: seq<int>) {
    && (forall i :: 0 <= i < |ids| ==> IsOpen(rows, ids[i]))
    && (forall i, j :: 0 <= i < j < |ids| ==> ids[i] != ids[j])
  }

  /** Every list of different open rows. */
  lemma SelectableGrows(rows: map<int, Row>, ids: seq<int>, id: int)
    ensures Selectable(rows, [])
    ensures Selectable(rows, ids + [id]) <==> Selectable(rows, ids) && IsOpen(rows, id) && id !in ids
  {
    var more := ids + [id];
    assert more[|ids|] == id && forall i :: 0 <= i < |ids| ==> more[i] == ids[i];
  }

  /** A row is published again unless its guarded UPDATE failed. */
  predicate Goes(rows: map<int, Row>, id: int, writes: int -> bool) {
    id in rows && (rows[id].status == Judging ==> writes(id))
  }

  function ResetAll(rows: map<int, Row>, ids: seq<int>, writes: int -> bool): map<int, Row> {
    if ids == [] then rows
    else
      var n := |ids| - 1;
      var done := ResetAll(rows, ids[..n], writes);
      if Goes(rows, ids[n], writes) then SetStatus(done, ids[n], Pending) else done
  }

  function Published(rows: map<int, Row>, ids: seq<int>, writes: int -> bool): seq<TaskMessage> {
    if ids == [] then []
    else
      var n := |ids| - 1;
      var earlier := Published(rows, ids[..n], writes);
      if Goes(rows, ids[n], writes) then earlier + [MessageFor(rows, ids[n])] else earlier
  }

  /** `publish_judge_task` of a valid message. */
  ghost function SendOne(q: Mq, m: TaskMessage, connects: bool, sends: bool): (r: Mq)
    requires 0 in q.procs
    ensures 0 in r.procs
  {
    var k := JudgeQueue.Probed(q, connects);
    var how := RouteFor(k.procs[0].backend, sends);
    if CanSend(k, 0, how) then Send(k, 0, m, how) else k
  }

  ghost function SendAll(q: Mq, ms: seq<TaskMessage>, connects: bool, sends: bool): (r: Mq)
    requires 0 in q.procs
    ensures 0 in r.procs
  {
    if ms == [] then q
    else SendOne(SendAll(q, ms[..|ms| - 1], connects, sends), ms[|ms| - 1], connects, sends)
  }

  lemma SendOneMore(q: Mq, ms: seq<TaskMessage>, m: TaskMessage, connects: bool, sends: bool)
    requires 0 in q.procs
    ensures SendAll(q, ms + [m], connects, sends) == SendOne(SendAll(q, ms, connects, sends), m, connects, sends)
  {
    hide SendOne;
    assert (ms + [m])[..|ms|] == ms;
  }

  lemma {:induction false} Untouched(rows: map<int, Row>, ids: seq<int>, i: nat, writes: int -> bool)
    requires Selectable(rows, ids) && i < |ids|
    ensures var now := ResetAll(rows, ids[..i], writes);
            now.Keys == rows.Keys && forall k :: i <= k < |ids| ==> now[ids[k]] == rows[ids[k]]
  {
    if i > 0 {
      Untouched(rows, ids, i - 1, writes);
      assert ids[..i][..i - 1] == ids[..i - 1];
    }
  }

  // -------------------------------------------------------------- what a sweep achieves

  /** The sweep leaves final rows and unselected rows alone and makes the rest PENDING. */
  lemma {:induction false} ResetAllIs(rows: map<int, Row>, ids: seq<int>, writes: int -> bool, id: int)
    requires Selectable(rows, ids) && id in rows
    ensures var now := ResetAll(rows, ids, writes);
            id in now &&
            now[id] == if id in ids && Goes(rows, id, writes) then rows[id].(status := Pending) else rows[id]
  {
    if ids != [] {
      var n := |ids| - 1;
      ResetAllIs(rows, ids[..n], writes, id);
      assert ids == ids[..n] + [ids[n]];
    }
  }

  lemma {:induction false} EachPublished(rows: map<int, Row>, ids: seq<int>, writes: int -> bool, id: int)
    requires Selectable(rows, ids) && id in ids && Goes(rows, id, writes)
    ensures MessageFor(rows, id) in Published(rows, ids, writes)
  {
    var n := |ids| - 1;
    if id in ids[..n] {
      EachPublished(rows, ids[..n], writes, id);
    } else {
      assert ids == ids[..n] + [ids[n]];
    }
  }

  /** Publishing can go as `sends` says. */
  predicate Ready(q: Mq, sends: bool) {
    0 in q.procs && (sends && q.procs[0].backend.Rabbit? ==> q.procs[0].backend.up)
  }

  lemma SendOneGoes(q: Mq, m: TaskMessage, connects: bool, sends: bool)
    requires Ready(q, sends)
    ensures var k := JudgeQueue.Probed(q, connects);
            var how := RouteFor(k.procs[0].backend, sends);
            CanSend(k, 0, how) && SendOne(q, m, connects, sends) == Send(k, 0, m, how)
    ensures Ready(SendOne(q, m, connects, sends), sends)
  {
    hide Encode, Bodies;
  }

  lemma {:induction false} StaysReady(q: Mq, ms: seq<TaskMessage>, connects: bool, sends: bool)
    requires Ready(q, sends)
    ensures Ready(SendAll(q, ms, connects, sends), sends)
  {
    hide Ready, SendOne;
    if ms != [] {
      var n := |ms| - 1;
      ReadyHere(q, sends);
      StaysReady(q, ms[..n], connects, sends);
      SendOneGoes(SendAll(q, ms[..n], connects, sends), ms[n], connects, sends);
    } else {
      ReadyHere(q, sends);
    }
  }

  lemma ReadyHere(q: Mq, sends: bool)
    requires Ready(q, sends)
    ensures 0 in q.procs
  {
  }

  lemma ProbedKeeps(q: Mq, connects: bool, pl: Place, id: int)
    requires 0 in q.procs && Copy(q, map[], pl, id)
    ensures Copy(JudgeQueue.Probed(q, connects), map[], pl, id)
  {
  }

  /** Every message sent is waiting somewhere afterwards. */
  lemma {:induction false} AllCovered(q: Mq, ms: seq<TaskMessage>, connects: bool, sends: bool, m: TaskMessage)
    requires Ready(q, sends) && m in ms && forall i :: 0 <= i < |ms| ==> Valid(ms[i])
    ensures exists pl: Place :: !pl.InHand? && Copy(SendAll(q, ms, connects, sends), map[], pl, m.submission)
  {
    hide Send, CanSend, Copy, Valid, RouteFor, SendOne, JudgeQueue.Probed;
    var n := |ms| - 1;
    var sent := SendAll(q, ms[..n], connects, sends);
    StaysReady(q, ms[..n], connects, sends);
    SendOneGoes(sent, ms[n], connects, sends);
    var k := JudgeQueue.Probed(sent, connects);
    var how := RouteFor(k.procs[0].backend, sends);
    if m == ms[n] {
      var pl := SendingCopies(k, map[], 0, m, how);
    } else {
      assert ms == ms[..n] + [ms[n]];
      AllCovered(q, ms[..n], connects, sends, m);
      var pl: Place :| !pl.InHand? && Copy(sent, map[], pl, m.submission);
      ProbedKeeps(sent, connects, pl, m.submission);
      SendingKeeps(k, map[], 0, ms[n], how, pl, m.submission);
    }
  }

  lemma {:induction false} PublishedValid(rows: map<int, Row>, ids: seq<int>, writes: int -> bool)
    requires RowsOk(rows) && Selectable(rows, ids)
    ensures forall i :: 0 <= i < |Published(rows, ids, writes)| ==> Valid(Published(rows, ids, writes)[i])
  {
    if ids != [] {
      PublishedValid(rows, ids[..|ids| - 1], writes);
      assert RowOk(rows[ids[|ids| - 1]]);
    }
  }

  /** After `reclaim_stale_judging` every selected row whose guarded UPDATE did not fail is
      PENDING and a copy of its message is waiting; every other row is as it was. */
  lemma SweepAchieves(rows: map<int, Row>, ids: seq<int>, writes: int -> bool, q: Mq, connects: bool, sends: bool, id: int)
    requires RowsOk(rows) && Selectable(rows, ids) && Ready(q, sends) && id in rows
    ensures var now := ResetAll(rows, ids, writes);
            id in now &&
            (id in ids && Goes(rows, id, writes) ==>
               now[id].status == Pending &&
               exists pl: Place :: Copy(SendAll(q, Published(rows, ids, writes), connects, sends), map[], pl, id)) &&
            (id !in ids || !Goes(rows, id, writes) ==> now[id] == rows[id])
  {
    hide SendAll, Published, Copy;
    ResetAllIs(rows, ids, writes, id);
    if id in ids && Goes(rows, id, writes) {
      PublishedValid(rows, ids, writes);
      EachPublished(rows, ids, writes, id);
      AllCovered(q, Published(rows, ids, writes), connects, sends, MessageFor(rows, id));
    }
  }

  // ----------------------------------------------------------------------- the consumer

  lemma AckKeeps(q: Mq, tag: nat, pl: Place, id: int)
    requires 0 in q.procs && !pl.InHand? && Copy(q, map[], pl, id)
    ensures Copy(Acknowledge(q, 0, tag), map[], pl, id)
  {
  }

  /** `JudgeNode`; the loop of nl-api runs the same rounds and never defers. */
  class Node {
    var load: int
    const judge: Judge

    constructor (judge: Judge)
      ensures this.judge == judge && load == 0
    {
      this.load, this.judge := 0, judge;
    }

    /** One round: pop, then defer to the node `elsewhere` or judge, then acknowledge.  A
        deferred task has its copy before it is acknowledged; a judged one is final or the
        attempt failed.  `got` is what basic.get brings, `sends` whether a publish works. */
    method Round(connects: bool, got: JudgeQueue.Got, elsewhere: bool, sends: bool, box: Request -> Outcome, w: Weather)
      returns (taken: Option<TaskMessage>, deferred: bool, done: bool)
      requires judge.queue.Consistent() && Sound(box)
      requires got.Body? ==> got.json in judge.queue.ready && (judge.queue.probed && judge.queue.useRabbit ==> judge.queue.standing)
      modifies this`load, judge`rows, judge.queue
      ensures judge.queue.Consistent() && load == old(load)
      ensures var task := JudgeQueue.Delivered(JudgeQueue.Probed(old(judge.queue.View()), connects), got);
              var popped := JudgeQueue.AfterPop(JudgeQueue.Probed(old(judge.queue.View()), connects), got);
              0 in popped.procs &&
              taken == (if task.Some? then Some(task.value.msg) else None) &&
              (deferred <==> task.Some? && popped.procs[0].backend.Rabbit? && elsewhere) &&
              judge.queue.View() ==
                if task.None? then popped
                else if deferred then Acknowledge(SendOne(popped, task.value.msg, connects, sends), 0, task.value.tag)
                else Acknowledge(popped, 0, task.value.tag)
      ensures taken.None? || deferred ==> judge.rows == old(judge.rows) && !done
      ensures deferred ==> exists pl: Place :: !pl.InHand? && Copy(judge.queue.View(), map[], pl, taken.value.submission)
      ensures taken.Some? && !deferred ==>
                Attempted(old(judge.rows), judge.rows, judge.problems, box, w, taken.value.submission, done)
      ensures taken.Some? && !deferred && w == CLEAR ==>
                judge.rows == JudgeOne(old(judge.rows), judge.problems, box, taken.value.submission) &&
                (done <==> IsFinal(judge.rows, taken.value.submission))
    {
      hide Parse, Encode, Bodies, JudgeQueue.AfterPop, JudgeQueue.Delivered, JudgeOne, RouteFor, Attempted;
      deferred, done := false, false;
      var popped := judge.queue.TryPop(connects, got);
      if popped.None? {
        return None, false, false;
      }
      var task := popped.value;
      taken := Some(task.msg);
      if judge.queue.useRabbit && elsewhere {
        ghost var q := JudgeQueue.Probed(judge.queue.View(), connects);
        var ok := judge.queue.Publish(task.msg, connects, sends);
        if ok {
          ghost var pl := SendingCopies(q, map[], 0, task.msg, RouteFor(q.procs[0].backend, sends));
          AckKeeps(judge.queue.View(), task.tag, pl, task.msg.submission);
          judge.queue.Ack(task);
          deferred := true;
          return;
        }
      }
      load := load + 1;
      done := judge.RunJudgeTask(task.msg.submission, box, w);
      judge.queue.Ack(task);
      load := load - 1;
    }

    /** Rounds of an in-process queue until it is empty, nothing failing: the queue's messages
        are judged in order. */
    method DrainLocal(box: Request -> Outcome)
      requires judge.queue.Consistent() && judge.queue.probed && !judge.queue.useRabbit && Sound(box)
      modifies this`load, judge`rows, judge.queue
      ensures judge.queue.Consistent() && judge.queue.queue == [] && load == old(load)
      ensures judge.rows == JudgeAll(old(judge.rows), judge.problems, box, old(judge.queue.queue))
    {
      hide Parse, Encode, Bodies, JudgeOne, Sound;
      while judge.queue.queue != []
        invariant judge.queue.Consistent() && judge.queue.probed && !judge.queue.useRabbit && load == old(load)
        invariant JudgeAll(judge.rows, judge.problems, box, judge.queue.queue)
               == JudgeAll(old(judge.rows), judge.problems, box, old(judge.queue.queue))
        decreases |judge.queue.queue|
      {
        ghost var before := judge.queue.View();
        var popped := judge.queue.TryPop(false, JudgeQueue.Empty);
        assert judge.queue.View().procs[0] == before.procs[0].(queue := before.procs[0].queue[1..]);
        load := load + 1;
        var done := judge.RunJudgeTask(popped.value.msg.submission, box, CLEAR);
        judge.queue.Ack(popped.value);
        load := load - 1;
      }
    }
  }

  // ---------------------------------------------------------------------- submitting

  predicate Acceptable(user: int, problem: int, language: string, code: string) {
    user > 0 && problem > 0 && 0 < |code| <= 64 * 1024 && language in {"CPP", "C", "PYTHON", "JAVA"}
  }

  /** `create_submission`: `visible` tells whether the problem can be seen, `inserts` whether
      the INSERT succeeds, and `id` is the fresh id.  The id is returned for every row that
      is inserted, and then a copy of its message is on its way. */
  method CreateSubmission(judge: Judge, user: int, problem: int, language: string, code: string, visible: bool,
                          inserts: bool, id: int, connects: bool, sends: bool)
      returns (created: Option<int>)
    requires judge.queue.Consistent() && (sends && judge.queue.probed && judge.queue.useRabbit ==> judge.queue.standing)
    requires id > 0 && id !in judge.rows
    modifies judge`rows, judge.queue
    ensures judge.queue.Consistent()
    ensures created == if Acceptable(user, problem, language, code) && visible && inserts then Some(id) else None
    ensures created.None? ==> judge.rows == old(judge.rows) && judge.queue.View() == old(judge.queue.View())
    ensures created.Some? ==>
              judge.rows == old(judge.rows)[id := Row(Pending, problem, language, code)] &&
              judge.queue.View() == SendOne(old(judge.queue.View()), TaskMessage(id, problem, language), connects, sends) &&
              exists pl: Place :: !pl.InHand? && Copy(judge.queue.View(), map[], pl, id)
  {
    hide Encode, Parse, Bodies, RouteFor;
    if user <= 0 || problem <= 0 || |code| == 0 || |code| > 64 * 1024 {
      return None;
    }
    if language != "CPP" && language != "C" && language != "PYTHON" && language != "JAVA" {
      return None;
    }
    if !visible || !inserts {
      return None;
    }
    judge.rows := judge.rows[id := Row(Pending, problem, language, code)];
    var m := TaskMessage(id, problem, language);
    ghost var q := JudgeQueue.Probed(judge.queue.View(), connects);
    var ok := judge.queue.Publish(m, connects, sends);
    if !ok {
      return None;
    }
    ghost var pl := SendingCopies(q, map[], 0, m, RouteFor(q.procs[0].backend, sends));
    return Some(id);
  }
}
