/** What every run of the delivery system keeps: published messages are never poison,
    delivery tags never alias, and no accepted submission is lost. */
module DeliverySafety {
  import opened Wrappers
  import opened Delivery

  // ----------------------------------------------------------- well-formed states

  predicate Readable(b: Json) { Parse(b).Some? }

  predicate RowOk(row: Row) { row.problem > 0 && row.language != "" && row.code != "" }

  predicate RowsOk(rows: map<int, Row>) { forall id :: id in rows ==> id > 0 && RowOk(rows[id]) }

  ghost predicate ReadyOk(ready: multiset<Json>) { forall b :: b in ready ==> Readable(b) }

  /** Tags count from 1, only a standing connection has unacknowledged messages, and only
      without one are there local ones. */
  ghost predicate ProcOk(p: Proc) {
    && p.nextTag >= 1
    && (forall m :: m in p.queue ==> Valid(m))
    && (forall k :: k in p.unacked ==> 0 < k < p.nextTag && Readable(p.unacked[k]))
    && (p.unacked != map[] ==> p.backend == Rabbit(true))
    && (p.backend == Unprobed ==> p.nextTag == 1)
    && (p.queue != [] ==> p.backend == Local)
  }

  ghost predicate ProcsOk(procs: map<nat, Proc>) { forall p :: p in procs ==> ProcOk(procs[p]) }

  predicate PcOk(pc: Pc) {
    match pc
    case Creating(m) => Valid(m)
    case Sweeping(todo) => todo != [] && forall i :: 0 <= i < |todo| ==> Valid(todo[i].msg)
    case _ => Valid(pc.task.msg)
  }

  /** While the connection stands, the broker keeps the message under its tag. */
  predicate TagOk(p: Proc, task: Task) {
    && task.tag < p.nextTag
    && (task.tag != 0 && p.backend == Rabbit(true) ==>
          task.tag in p.unacked && Parse(p.unacked[task.tag]) == Some(task.msg))
  }

  predicate ThreadOk(procs: map<nat, Proc>, t: Tid, pc: Pc) {
    t.proc in procs && PcOk(pc) && (HasTask(pc) ==> TagOk(procs[t.proc], pc.task))
  }

  ghost predicate ThreadsOk(procs: map<nat, Proc>, threads: map<Tid, Pc>) {
    forall t :: t in threads ==> ThreadOk(procs, t, threads[t])
  }

  predicate SameDelivery(t: Tid, pc: Pc, u: Tid, qc: Pc) {
    t.proc == u.proc && HasTask(pc) && HasTask(qc) && pc.task.tag != 0 && pc.task.tag == qc.task.tag
  }

  /** No two threads hold the same delivery. */
  ghost predicate TagsDistinct(threads: map<Tid, Pc>) {
    forall t, u :: t in threads && u in threads && SameDelivery(t, threads[t], u, threads[u]) ==> t == u
  }

  ghost predicate WellFormed(s: State) {
    && RowsOk(s.rows) && ReadyOk(s.mq.ready) && ProcsOk(s.mq.procs)
    && ThreadsOk(s.mq.procs, s.threads) && TagsDistinct(s.threads)
  }

  // ------------------------------------------------------------------ frame lemmas

  predicate KeepsTask(threads: map<Tid, Pc>, t: Tid, next: Option<Pc>) {
    next.Some? && HasTask(next.value) ==>
      t in threads && HasTask(threads[t]) && threads[t].task == next.value.task
  }

  lemma MoveThread(procs: map<nat, Proc>, threads: map<Tid, Pc>, t: Tid, next: Option<Pc>)
    requires ThreadsOk(procs, threads) && TagsDistinct(threads) && t.proc in procs
    requires next.Some? ==> PcOk(next.value)
    requires KeepsTask(threads, t, next)
    ensures ThreadsOk(procs, Put(threads, t, next)) && TagsDistinct(Put(threads, t, next))
  {
  }

  lemma ChangeProc(procs: map<nat, Proc>, threads: map<Tid, Pc>, p: nat, q: Proc)
    requires ThreadsOk(procs, threads)
    requires forall t :: t in threads && t.proc == p && HasTask(threads[t]) ==> TagOk(q, threads[t].task)
    ensures ThreadsOk(procs[p := q], threads)
  {
  }

  /** Losing the connection, or using it for the first time, breaks no tag. */
  lemma Reconnect(procs: map<nat, Proc>, threads: map<Tid, Pc>, p: nat, q: Proc)
    requires ThreadsOk(procs, threads) && p in procs
    requires q.backend != Rabbit(true) && q.nextTag == procs[p].nextTag
    ensures ThreadsOk(procs[p := q], threads)
  {
    ChangeProc(procs, threads, p, q);
  }

  // ------------------------------------------------------------ what a step leaves

  lemma RowsAfterMove(s: State, e: Event)
    requires MovesThread(e) && CanMove(s, e) && RowsOk(s.rows)
    ensures RowsOk(Written(s, e)) && s.rows.Keys <= Written(s, e).Keys
  {
  }

  lemma ReadyAfterCall(s: State, e: Event)
    requires !MovesThread(e) && CanCall(s, e) && ReadyOk(s.mq.ready) && ProcsOk(s.mq.procs)
    ensures ReadyOk(MqAfter(s, e).ready)
  {
    hide Bodies, Encode, Outgoing;
    if e.Publish? {
      ParseEncode(Outgoing(s.threads[e.t]).value);
    }
  }

  lemma ProcsAfterSend(q: Mq, p: nat, m: TaskMessage, how: Route)
    requires ProcsOk(q.procs) && CanSend(q, p, how) && Valid(m)
    ensures ProcsOk(Send(q, p, m, how).procs)
  {
    hide Bodies, Encode, Readable;
  }

  lemma ProcsAfterGet(q: Mq, p: nat, body: Json)
    requires ProcsOk(q.procs) && p in q.procs && q.procs[p].backend == Rabbit(true)
    ensures ProcsOk(Deliver(q, p, body).procs)
  {
  }

  lemma ProcsAfterAck(q: Mq, p: nat, tag: nat)
    requires ProcsOk(q.procs) && p in q.procs
    ensures ProcsOk(Acknowledge(q, p, tag).procs)
  {
    hide Readable;
    assert ProcOk(q.procs[p]);
  }

  lemma ProcsAfterBroker(s: State, e: Event)
    requires !MovesThread(e) && CanCall(s, e) && ProcsOk(s.mq.procs)
    requires !e.Publish? && !e.Get? && !e.Ack?
    ensures ProcsOk(MqAfter(s, e).procs)
  {
    hide Bodies, Readable, Send, Deliver, Acknowledge;
  }

  lemma ProcsAfterCall(s: State, e: Event)
    requires !MovesThread(e) && CanCall(s, e) && ProcsOk(s.mq.procs)
    ensures ProcsOk(MqAfter(s, e).procs)
  {
    hide ProcsOk, Bodies, Outgoing, Send, Deliver, Acknowledge;
    match e
    case Publish(t, how) => ProcsAfterSend(s.mq, t.proc, Outgoing(s.threads[t]).value, how);
    case Get(t, body) => ProcsAfterGet(s.mq, t.proc, body);
    case Ack(t) => ProcsAfterAck(s.mq, t.proc, s.threads[t].task.tag);
    case _ => ProcsAfterBroker(s, e);
  }

  // ---------------------------------------------------------------- tags and threads

  lemma ThreadsAfterSend(q: Mq, threads: map<Tid, Pc>, p: nat, m: TaskMessage, how: Route)
    requires ThreadsOk(q.procs, threads) && CanSend(q, p, how)
    ensures ThreadsOk(Send(q, p, m, how).procs, threads)
  {
    hide Bodies, Encode, PcOk;
    match how
    case ToBroker =>
    case AfterFailure => Reconnect(q.procs, threads, p, Send(q, p, m, how).procs[p]);
    case InProcess => Reconnect(q.procs, threads, p, Send(q, p, m, how).procs[p]);
  }

  lemma ThreadsAfterPublish(s: State, t: Tid, how: Route)
    requires WellFormed(s) && Enabled(s, Publish(t, how))
    ensures ThreadsOk(MqAfter(s, Publish(t, how)).procs, ThreadsAfter(s, Publish(t, how)))
    ensures TagsDistinct(ThreadsAfter(s, Publish(t, how)))
  {
    hide Send, TagOk, RowsOk, ReadyOk, ProcsOk;
    var m := Outgoing(s.threads[t]).value;
    ThreadsAfterSend(s.mq, s.threads, t.proc, m, how);
    assert ThreadOk(s.mq.procs, t, s.threads[t]);
    assert t.proc in Send(s.mq, t.proc, m, how).procs by {
      assert ThreadOk(Send(s.mq, t.proc, m, how).procs, t, s.threads[t]);
    }
    MoveThread(Send(s.mq, t.proc, m, how).procs, s.threads, t, Sent(s.threads[t]));
  }

  /** What a thread has in hand is known to its process. */
  lemma TaskKnown(s: State, t: Tid, p: nat)
    requires ThreadsOk(s.mq.procs, s.threads) && t in s.threads && t.proc == p && HasTask(s.threads[t])
    ensures p in s.mq.procs && TagOk(s.mq.procs[p], s.threads[t].task)
  {
    assert ThreadOk(s.mq.procs, t, s.threads[t]);
  }

  lemma OldThreadsAfterGet(s: State, t: Tid, body: Json)
    requires WellFormed(s) && Enabled(s, Get(t, body))
    ensures ThreadsOk(Deliver(s.mq, t.proc, body).procs, s.threads)
  {
    hide PcOk, ReadyOk, RowsOk, TagsDistinct;
    var p := t.proc;
    var was, q := s.mq.procs[p], Deliver(s.mq, p, body).procs[p];
    assert ProcOk(was);
    forall u | u in s.threads && u.proc == p && HasTask(s.threads[u]) ensures TagOk(q, s.threads[u].task) {
      TaskKnown(s, u, p);
    }
    ChangeProc(s.mq.procs, s.threads, p, q);
  }

  lemma ThreadsAfterGet(s: State, t: Tid, body: Json)
    requires WellFormed(s) && Enabled(s, Get(t, body))
    ensures ThreadsOk(MqAfter(s, Get(t, body)).procs, ThreadsAfter(s, Get(t, body)))
    ensures TagsDistinct(ThreadsAfter(s, Get(t, body)))
  {
    OldThreadsAfterGet(s, t, body);
    assert ProcOk(s.mq.procs[t.proc]);
    forall u | u in s.threads && u.proc == t.proc && HasTask(s.threads[u])
      ensures s.threads[u].task.tag < s.mq.procs[t.proc].nextTag
    {
      TaskKnown(s, u, t.proc);
    }
  }

  lemma ThreadsAfterPop(s: State, t: Tid)
    requires WellFormed(s) && Enabled(s, PopLocal(t))
    ensures ThreadsOk(MqAfter(s, PopLocal(t)).procs, ThreadsAfter(s, PopLocal(t)))
    ensures TagsDistinct(ThreadsAfter(s, PopLocal(t)))
  {
    hide ReadyOk, RowsOk;
    assert ProcOk(s.mq.procs[t.proc]);
    Reconnect(s.mq.procs, s.threads, t.proc, DropFront(s.mq, t.proc).procs[t.proc]);
  }

  lemma ThreadsAfterAck(s: State, t: Tid)
    requires WellFormed(s) && Enabled(s, Ack(t))
    ensures ThreadsOk(MqAfter(s, Ack(t)).procs, ThreadsAfter(s, Ack(t)))
    ensures TagsDistinct(ThreadsAfter(s, Ack(t)))
  {
    hide ReadyOk, RowsOk, ProcsOk, PcOk;
    var p := t.proc;
    var q := MqAfter(s, Ack(t)).procs[p];
    var left := Put(s.threads, t, None);
    MoveThread(s.mq.procs, s.threads, t, None);
    forall u | u in left && u.proc == p && HasTask(left[u]) ensures TagOk(q, left[u].task) {
      TaskKnown(s, u, p);
      assert !SameDelivery(t, s.threads[t], u, s.threads[u]);
    }
    ChangeProc(s.mq.procs, left, p, q);
  }

  lemma ThreadsAfterCrash(s: State, p: nat)
    requires WellFormed(s) && Enabled(s, Crash(p))
    ensures ThreadsOk(MqAfter(s, Crash(p)).procs, ThreadsAfter(s, Crash(p)))
    ensures TagsDistinct(ThreadsAfter(s, Crash(p)))
  {
    hide ReadyOk, RowsOk, ProcsOk, PcOk, TagOk, Bodies;
    var left := Without(s.threads, p);
    forall u | u in left ensures ThreadOk(MqAfter(s, Crash(p)).procs, u, left[u]) {
      assert ThreadOk(s.mq.procs, u, s.threads[u]);
    }
  }

  /** A process that has not connected yet has handed out no tag. */
  lemma ThreadsAfterProbe(s: State, p: nat, up: bool)
    requires WellFormed(s) && Enabled(s, Probe(p, up))
    ensures ThreadsOk(MqAfter(s, Probe(p, up)).procs, s.threads)
  {
    hide ReadyOk, RowsOk, TagsDistinct;
    assert ProcOk(s.mq.procs[p]);
    var q := MqAfter(s, Probe(p, up)).procs[p];
    forall u | u in s.threads && u.proc == p && HasTask(s.threads[u]) ensures TagOk(q, s.threads[u].task) {
      TaskKnown(s, u, p);
    }
    ChangeProc(s.mq.procs, s.threads, p, q);
  }

  lemma ThreadsAfterBroker(s: State, e: Event)
    requires WellFormed(s) && Enabled(s, e)
    requires e.Start? || e.LinkDown? || e.CallFails? || e.Edit?
    ensures ThreadsOk(MqAfter(s, e).procs, s.threads)
  {
    hide ReadyOk, RowsOk, ProcsOk, TagsDistinct, Bodies;
    if e.Start? {
      forall u | u in s.threads ensures ThreadOk(MqAfter(s, e).procs, u, s.threads[u]) {
        assert ThreadOk(s.mq.procs, u, s.threads[u]);
      }
    } else if !e.Edit? {
      Reconnect(s.mq.procs, s.threads, e.p, MqAfter(s, e).procs[e.p]);
    }
  }

  lemma ThreadsAfterCall(s: State, e: Event)
    requires WellFormed(s) && Enabled(s, e) && !MovesThread(e)
    ensures ThreadsOk(MqAfter(s, e).procs, ThreadsAfter(s, e)) && TagsDistinct(ThreadsAfter(s, e))
  {
    hide ThreadsOk, TagsDistinct, ReadyOk, RowsOk, ProcsOk, MqAfter;
    match e
    case Probe(p, up) => ThreadsAfterProbe(s, p, up);
    case Crash(p) => ThreadsAfterCrash(s, p);
    case Publish(t, how) => ThreadsAfterPublish(s, t, how);
    case Get(t, body) => ThreadsAfterGet(s, t, body);
    case PopLocal(t) => ThreadsAfterPop(s, t);
    case Ack(t) => ThreadsAfterAck(s, t);
    case _ => ThreadsAfterBroker(s, e);
  }

  lemma SweepOk(s: State, e: Event)
    requires WellFormed(s) && Enabled(s, e) && (e.Select? || e.Reset?)
    ensures Next(s, e).Some? ==> PcOk(Next(s, e).value)
  {
    hide ReadyOk, ProcsOk, TagsDistinct, TagOk;
    if e.Select? {
      assert forall i :: 0 <= i < |e.ids| ==> RowOk(s.rows[e.ids[i]]);
    } else {
      assert ThreadOk(s.mq.procs, e.t, s.threads[e.t]);
    }
  }

  /** An event within `run_judge_task` keeps the thread's message. */
  lemma JudgingOk(s: State, e: Event)
    requires Enabled(s, e) && (e.Look? || e.LookConfig? || e.LookCases? || e.Fail? || e.Mark? || e.Conclude?)
    ensures HasTask(s.threads[e.t]) && Next(s, e).Some?
    ensures HasTask(Next(s, e).value) && Next(s, e).value.task == s.threads[e.t].task
  {
  }

  /** In a well-formed state no publish is refused and no delivered body is poison. */
  lemma NoPoison(s: State, e: Event)
    requires WellFormed(s) && Enabled(s, e)
    ensures !e.Refuse? && (e.Get? ==> Parse(e.body).Some?)
  {
    hide Parse, TagOk, ProcsOk, TagsDistinct, RowsOk;
    if e.Refuse? && ThreadOk(s.mq.procs, e.t, s.threads[e.t]) {
      assert false;
    }
    assert e.Get? ==> Readable(e.body);
  }

  lemma NextOk(s: State, e: Event)
    requires WellFormed(s) && MovesThread(e) && Enabled(s, e)
    ensures Next(s, e).Some? ==> PcOk(Next(s, e).value)
    ensures KeepsTask(s.threads, e.t, Next(s, e))
  {
    hide ReadyOk, RowsOk, ProcsOk, TagsDistinct, TagOk;
    if e.Select? || e.Reset? {
      SweepOk(s, e);
    } else if !e.Insert? {
      NoPoison(s, e);
      JudgingOk(s, e);
      assert ThreadOk(s.mq.procs, e.t, s.threads[e.t]);
    }
  }

  lemma ThreadsAfterMove(s: State, e: Event)
    requires WellFormed(s) && MovesThread(e) && Enabled(s, e)
    ensures ThreadsOk(s.mq.procs, Put(s.threads, e.t, Next(s, e))) && TagsDistinct(Put(s.threads, e.t, Next(s, e)))
  {
    hide Next, ThreadsOk, TagsDistinct, ReadyOk, RowsOk, ProcsOk, PcOk, Put;
    NextOk(s, e);
    MoveThread(s.mq.procs, s.threads, e.t, Next(s, e));
  }

  lemma StepKeepsWellFormed(s: State, e: Event)
    requires WellFormed(s) && Enabled(s, e)
    ensures WellFormed(Apply(s, e)) && s.rows.Keys <= Apply(s, e).rows.Keys
  {
    hide ThreadsOk, TagsDistinct, ReadyOk, RowsOk, ProcsOk, Next, Written, CanMove, CanCall, MqAfter, ThreadsAfter, Put;
    if MovesThread(e) {
      RowsAfterMove(s, e);
      ThreadsAfterMove(s, e);
    } else {
      ReadyAfterCall(s, e);
      ProcsAfterCall(s, e);
      ThreadsAfterCall(s, e);
    }
  }

  // ------------------------------------------------------------------------- coverage

  /** Where a copy of a submission's message can be. */
  datatype Place = InReady(body: Json) | InQueue(p: nat, i: nat) | InHand(t: Tid)

  predicate Names(b: Json, id: int) { Parse(b).Some? && Parse(b).value.submission == id }

  predicate Copy(q: Mq, threads: map<Tid, Pc>, pl: Place, id: int) {
    match pl
    case InReady(b) => b in q.ready && Names(b, id)
    case InQueue(p, i) => p in q.procs && i < |q.procs[p].queue| && q.procs[p].queue[i].submission == id
    case InHand(t) => t in threads && Answers(threads[t], id)
  }

  ghost predicate Covered(s: State, id: int) { exists pl :: Copy(s.mq, s.threads, pl, id) }

  /** Nothing more needs to happen: the row has its verdict, or a copy will get it there,
      or the last copy was dropped and the reclaimer has to find the row. */
  ghost predicate Safe(s: State, id: int) {
    id in s.rows && (IsFinal(s.rows, id) || Covered(s, id) || id in s.orphaned)
  }

  ghost predicate NothingLost(s: State) { forall id :: id in s.accepted ==> Safe(s, id) }

  /** A step of `run_judge_task`: the thread goes on answering until the row is final. */
  lemma AnswersOn(s: State, e: Event, id: int)
    requires MovesThread(e) && CanMove(s, e) && id in s.rows
    requires e.t in s.threads && Answers(s.threads[e.t], id)
    ensures IsFinal(Written(s, e), id) || (Next(s, e).Some? && Answers(Next(s, e).value, id))
  {
    hide Hits;
  }

  /** Only the JUDGING write takes a final status away, and then its thread answers. */
  lemma FinalOn(s: State, e: Event, id: int)
    requires MovesThread(e) && CanMove(s, e) && IsFinal(s.rows, id)
    ensures IsFinal(Written(s, e), id) || (Next(s, e).Some? && Answers(Next(s, e).value, id))
  {
  }

  lemma SafeAfterMove(s: State, e: Event, id: int)
    requires MovesThread(e) && Enabled(s, e) && Safe(s, id)
    requires id in Written(s, e)
    ensures Safe(Apply(s, e), id)
  {
    hide Next, Written, CanMove, Answers, Names;
    var r := Apply(s, e);
    if IsFinal(s.rows, id) {
      FinalOn(s, e, id);
      assert !IsFinal(r.rows, id) ==> Copy(r.mq, r.threads, InHand(e.t), id);
    } else if Covered(s, id) {
      var pl :| Copy(s.mq, s.threads, pl, id);
      if pl == InHand(e.t) {
        AnswersOn(s, e, id);
        assert !IsFinal(r.rows, id) ==> Copy(r.mq, r.threads, InHand(e.t), id);
      } else {
        assert Copy(r.mq, r.threads, pl, id);
      }
    }
  }

  /** Sending leaves a copy of what was sent, and every other copy where it is. */
  lemma SendingCopies(q: Mq, threads: map<Tid, Pc>, p: nat, m: TaskMessage, how: Route) returns (pl: Place)
    requires CanSend(q, p, how) && Valid(m)
    ensures !pl.InHand? && Copy(Send(q, p, m, how), threads, pl, m.submission)
  {
    hide Encode, Parse, Bodies;
    ParseEncode(m);
    pl := if how.ToBroker? then InReady(Encode(m)) else InQueue(p, |q.procs[p].queue|);
  }

  lemma SendingKeeps(q: Mq, threads: map<Tid, Pc>, p: nat, m: TaskMessage, how: Route, pl: Place, id: int)
    requires CanSend(q, p, how) && Copy(q, threads, pl, id)
    ensures Copy(Send(q, p, m, how), threads, pl, id)
  {
    hide Encode, Names, Bodies;
  }

  lemma SafeAfterPublish(s: State, t: Tid, how: Route, id: int)
    requires Enabled(s, Publish(t, how))
    requires Safe(s, id) || (id in s.rows && id == Outgoing(s.threads[t]).value.submission)
    ensures Safe(Apply(s, Publish(t, how)), id)
  {
    hide Send, CanSend, Names;
    var m := Outgoing(s.threads[t]).value;
    var r := Apply(s, Publish(t, how));
    if m.submission == id {
      var pl := SendingCopies(s.mq, s.threads, t.proc, m, how);
      assert Copy(r.mq, r.threads, pl, id);
    } else if !IsFinal(s.rows, id) && Covered(s, id) {
      var pl :| Copy(s.mq, s.threads, pl, id);
      SendingKeeps(s.mq, s.threads, t.proc, m, how, pl, id);
      assert Copy(r.mq, r.threads, pl, id);
    }
  }

  lemma SafeAfterGet(s: State, t: Tid, body: Json, id: int)
    requires Enabled(s, Get(t, body)) && Safe(s, id)
    ensures Safe(Apply(s, Get(t, body)), id)
  {
    hide Parse;
    var r := Apply(s, Get(t, body));
    if !IsFinal(s.rows, id) && Covered(s, id) {
      var pl :| Copy(s.mq, s.threads, pl, id);
      assert Copy(r.mq, r.threads, if pl == InReady(body) then InHand(t) else pl, id);
    }
  }

  lemma SafeAfterPop(s: State, t: Tid, id: int)
    requires Enabled(s, PopLocal(t)) && Safe(s, id)
    ensures Safe(Apply(s, PopLocal(t)), id)
  {
    hide Names;
    var r := Apply(s, PopLocal(t));
    if !IsFinal(s.rows, id) && Covered(s, id) {
      var pl :| Copy(s.mq, s.threads, pl, id);
      if pl.InQueue? && pl.p == t.proc {
        assert Copy(r.mq, r.threads, if pl.i == 0 then InHand(t) else InQueue(pl.p, pl.i - 1), id);
      } else {
        assert Copy(r.mq, r.threads, pl, id);
      }
    }
  }

  lemma SafeAfterAck(s: State, t: Tid, id: int)
    requires Enabled(s, Ack(t)) && Safe(s, id)
    ensures Safe(Apply(s, Ack(t)), id)
  {
    hide Names;
    var r := Apply(s, Ack(t));
    if !IsFinal(s.rows, id) && Covered(s, id) {
      var pl :| Copy(s.mq, s.threads, pl, id);
      assert pl != InHand(t) ==> Copy(r.mq, r.threads, pl, id);
    }
  }

  /** A crash: what the broker had handed out goes back to it, the rest is lost. */
  lemma CopyAfterCrash(s: State, p: nat, pl: Place, id: int) returns (now: Place)
    requires WellFormed(s) && Enabled(s, Crash(p)) && Copy(s.mq, s.threads, pl, id)
    ensures id in LostWith(s.mq, s.threads, p) || Copy(MqAfter(s, Crash(p)), Without(s.threads, p), now, id)
  {
    hide RowsOk, ReadyOk, ProcsOk, TagsDistinct, PcOk;
    now := pl;
    if pl.InHand? && pl.t.proc == p {
      TaskKnown(s, pl.t, p);
      var pc := s.threads[pl.t];
      if !OnlyHere(s.mq.procs[p], pc) {
        now := InReady(s.mq.procs[p].unacked[pc.task.tag]);
      }
    } else if pl.InQueue? && pl.p == p {
      assert s.mq.procs[p].queue[pl.i].submission in LostWith(s.mq, s.threads, p);
    }
  }

  lemma SafeAfterCrash(s: State, p: nat, id: int)
    requires WellFormed(s) && Enabled(s, Crash(p)) && Safe(s, id)
    ensures Safe(Apply(s, Crash(p)), id)
  {
    hide WellFormed, MqAfter, Without, LostWith, Copy;
    if !IsFinal(s.rows, id) && Covered(s, id) {
      var pl :| Copy(s.mq, s.threads, pl, id);
      var now := CopyAfterCrash(s, p, pl, id);
    }
  }

  lemma SafeAfterBroker(s: State, e: Event, id: int)
    requires Enabled(s, e) && Safe(s, id)
    requires e.Start? || e.Probe? || e.LinkDown? || e.CallFails? || e.Edit?
    ensures Safe(Apply(s, e), id)
  {
    hide Names, Bodies;
    if !IsFinal(s.rows, id) && Covered(s, id) {
      var pl :| Copy(s.mq, s.threads, pl, id);
      assert Copy(MqAfter(s, e), s.threads, pl, id);
    }
  }

  lemma SafeOn(s: State, e: Event, id: int)
    requires WellFormed(s) && Enabled(s, e) && Safe(s, id)
    ensures Safe(Apply(s, e), id)
  {
    hide Apply, CanMove, CanCall, Safe, ThreadsOk, TagsDistinct, ReadyOk, ProcsOk, Written;
    if MovesThread(e) {
      RowsAfterMove(s, e);
      assert id in Written(s, e) by { assert id in s.rows by { SafeHasRow(s, id); } }
      SafeAfterMove(s, e, id);
    } else {
      match e
      case Crash(p) => SafeAfterCrash(s, p, id);
      case Publish(t, how) => SafeAfterPublish(s, t, how, id);
      case Get(t, body) => SafeAfterGet(s, t, body, id);
      case PopLocal(t) => SafeAfterPop(s, t, id);
      case Ack(t) => SafeAfterAck(s, t, id);
      case _ => SafeAfterBroker(s, e, id);
    }
  }

  lemma SafeHasRow(s: State, id: int)
    requires Safe(s, id)
    ensures id in s.rows
  {
  }

  // ------------------------------------------------------------------------- all runs

  ghost predicate RowsOfCreating(s: State) {
    forall t :: t in s.threads && s.threads[t].Creating? ==> s.threads[t].msg.submission in s.rows
  }

  /** Only an INSERT starts publishing a new id. */
  lemma CreatingIsInserted(s: State, e: Event)
    requires MovesThread(e) && CanMove(s, e) && Next(s, e).Some? && Next(s, e).value.Creating?
    ensures e.Insert? && Next(s, e).value.msg.submission in Written(s, e)
  {
  }

  lemma CreatingStays(s: State, e: Event, t: Tid)
    requires !MovesThread(e) && CanCall(s, e)
    requires t in ThreadsAfter(s, e) && ThreadsAfter(s, e)[t].Creating?
    ensures t in s.threads && s.threads[t] == ThreadsAfter(s, e)[t]
  {
    hide Parse;
  }

  lemma StepKeepsCreating(s: State, e: Event)
    requires RowsOfCreating(s) && Enabled(s, e) && s.rows.Keys <= Apply(s, e).rows.Keys
    ensures RowsOfCreating(Apply(s, e))
  {
    hide Next, Written, CanMove, CanCall, ThreadsAfter, MqAfter, OrphanedAfter, AcceptedAfter;
    var r := Apply(s, e);
    forall t | t in r.threads && r.threads[t].Creating? ensures r.threads[t].msg.submission in r.rows {
      if !MovesThread(e) {
        CreatingStays(s, e, t);
      } else if t == e.t {
        CreatingIsInserted(s, e);
      }
    }
  }

  /** What every reachable state has. */
  ghost predicate Inv(s: State) { WellFormed(s) && RowsOfCreating(s) && NothingLost(s) }

  lemma NewlyAccepted(s: State, e: Event, id: int)
    requires RowsOfCreating(s) && Enabled(s, e) && id !in s.accepted && id in Apply(s, e).accepted
    ensures Safe(Apply(s, e), id)
  {
    hide Safe, MqAfter, ThreadsAfter, OrphanedAfter, Written, Next;
    SafeAfterPublish(s, e.t, e.how, id);
  }

  lemma StepKeepsInv(s: State, e: Event)
    requires Inv(s) && Enabled(s, e)
    ensures Inv(Apply(s, e))
  {
    hide Apply, WellFormed, RowsOfCreating, Safe, Enabled;
    StepKeepsWellFormed(s, e);
    StepKeepsCreating(s, e);
    forall id | id in Apply(s, e).accepted ensures Safe(Apply(s, e), id) {
      if id in s.accepted {
        SafeOn(s, e, id);
      } else {
        NewlyAccepted(s, e, id);
      }
    }
  }

  lemma {:induction false} RunKeepsInv(s: State, es: seq<Event>)
    requires Inv(s) && IsRun(s, es)
    ensures Inv(After(s, es))
    decreases |es|
  {
    hide Apply, Enabled, Inv;
    if es != [] {
      StepKeepsInv(s, es[0]);
      RunKeepsInv(Apply(s, es[0]), es[1..]);
    }
  }

  lemma ReachableInv(s: State)
    requires Reachable(s)
    ensures Inv(s)
  {
    var s0, es :| Initial(s0) && IsRun(s0, es) && After(s0, es) == s;
    assert Inv(s0);
    hide Inv, Apply, Enabled;
    RunKeepsInv(s0, es);
  }

  /** No lost task.  In every reachable state every submission whose id was returned has
      its verdict, or a copy of its message is with the broker, in a local queue or in the
      hands of a consumer that still has to pass it on or judge it, or else a copy was
      dropped since it was last published. */
  lemma NoLostTask(s: State, id: int)
    requires Reachable(s) && id in s.accepted
    ensures id in s.rows
    ensures s.rows[id].status.Final? || Covered(s, id) || id in s.orphaned
  {
    hide Reachable;
    ReachableInv(s);
    assert Safe(s, id);
  }

  /** The copies that end with a process: those in its local queue, and those in the hands
      of its threads that the broker will not deliver again. */
  predicate DiesWith(s: State, p: nat, pl: Place)
    requires p in s.mq.procs
  {
    (pl.InQueue? && pl.p == p) ||
    (pl.InHand? && pl.t.proc == p && pl.t in s.threads && OnlyHere(s.mq.procs[p], s.threads[pl.t]))
  }

  /** A copy is dropped in two ways only: a failed attempt is acknowledged, or a process
      crashes together with it. */
  lemma DroppedOnlyBy(s: State, e: Event, id: int)
    requires Enabled(s, e) && id !in s.orphaned && id in Apply(s, e).orphaned
    ensures (e.Ack? && s.threads[e.t].Finished? && Answers(s.threads[e.t], id))
         || (e.Crash? && exists pl :: DiesWith(s, e.p, pl) && Copy(s.mq, s.threads, pl, id))
  {
    hide CanMove, Next, Written, MqAfter, ThreadsAfter, Names;
    if e.Crash? {
      var q := s.mq.procs[e.p].queue;
      if i :| 0 <= i < |q| && q[i].submission == id {
        assert DiesWith(s, e.p, InQueue(e.p, i)) && Copy(s.mq, s.threads, InQueue(e.p, i), id);
      } else {
        var t :| t in s.threads && t.proc == e.p && OnlyHere(s.mq.procs[e.p], s.threads[t]) && Answers(s.threads[t], id);
        assert DiesWith(s, e.p, InHand(t)) && Copy(s.mq, s.threads, InHand(t), id);
      }
    }
  }

  /** An acknowledgement never touches another thread's delivery. */
  lemma AckIsOwn(s: State, t: Tid, u: Tid)
    requires Reachable(s) && Enabled(s, Ack(t)) && u in s.threads && u != t && HasTask(s.threads[u])
    requires u.proc == t.proc && s.mq.procs[t.proc].backend == Rabbit(true) && s.threads[u].task.tag != 0
    ensures var task, p := s.threads[u].task, Apply(s, Ack(t)).mq.procs[t.proc];
            task.tag in p.unacked && Parse(p.unacked[task.tag]) == Some(task.msg)
  {
    hide Reachable, Parse, NothingLost, RowsOk, ReadyOk, ProcsOk;
    ReachableInv(s);
    TaskKnown(s, u, t.proc);
    assert !SameDelivery(t, s.threads[t], u, s.threads[u]);
  }

  /** In a reachable state a publish is never refused, so `create_submission` returns the
      id of every row it has inserted, and the broker never delivers poison. */
  lemma PublishNeverRefused(s: State, e: Event)
    requires Reachable(s) && Enabled(s, e)
    ensures !e.Refuse? && (e.Get? ==> Parse(e.body).Some?)
  {
    hide Reachable, Parse, Enabled, NothingLost;
    ReachableInv(s);
    NoPoison(s, e);
  }
}
