/** The life of a submission as a step system: the rows of nl-submit/src/module.cpp, the
    queue of nl-common/src/mq.cpp, the consumers of nl-judge/src/node.cpp and
    nl-api/src/server.cpp, and the judging and reclaiming of nl-judge/src/module.cpp.

    Every SQL statement and every queue call made under the queue's mutex is one event, so
    any interleaving of processes and threads is a sequence of events.  What depends on the
    outside (failures, what the broker delivers, which rows are stale, what the sandbox
    says) is a parameter of the event. */
module Delivery {
  import opened Wrappers
  import opened Verdict

  // ------------------------------------------------------------------- task messages

  datatype TaskMessage = TaskMessage(submission: int, problem: int, language: string)

  /** `publish_judge_task` and `parse_json` accept the same messages. */
  predicate Valid(m: TaskMessage) { m.submission > 0 && m.problem > 0 && m.language != "" }

  /** The keys of a task's JSON object. */
  datatype Key = SubmissionId | ProblemId | Language | Named(name: string)

  /** A JSON document; `Other` stands for the kinds the parser never looks into. */
  datatype Json = Number(n: int) | Str(s: string) | Object(fields: map<Key, Json>) | Other

  function Encode(m: TaskMessage): Json {
    Object(map[SubmissionId := Number(m.submission), ProblemId := Number(m.problem), Language := Str(m.language)])
  }

  function NumberAt(j: Json, key: Key): Option<int> {
    if j.Object? && key in j.fields && j.fields[key].Number? then Some(j.fields[key].n) else None
  }

  function StringAt(j: Json, key: Key): Option<string> {
    if j.Object? && key in j.fields && j.fields[key].Str? then Some(j.fields[key].s) else None
  }

  function Parse(j: Json): (r: Option<TaskMessage>)
    ensures r.Some? ==> Valid(r.value)
  {
    var submission :- NumberAt(j, SubmissionId);
    var problem :- NumberAt(j, ProblemId);
    var language :- StringAt(j, Language);
    var m := TaskMessage(submission, problem, language);
    if Valid(m) then Some(m) else None
  }

  /** What is published is read back as it was; only invalid messages are poison. */
  lemma ParseEncode(m: TaskMessage)
    ensures Parse(Encode(m)) == if Valid(m) then Some(m) else None
  {
    var j := Encode(m);
    assert NumberAt(j, SubmissionId) == Some(m.submission);
    assert NumberAt(j, ProblemId) == Some(m.problem);
    assert StringAt(j, Language) == Some(m.language);
  }

  // ---------------------------------------------------------------------------- state

  /** `Final(w)` holds what the final UPDATE wrote, one of the recognised statuses. */
  datatype Status = Pending | Judging | Final(outcome: Outcome)

  datatype Row = Row(status: Status, problem: int, language: string, code: string)

  datatype Config = Config(timeLimit: int, memoryLimit: int, problemType: string, judgeMode: string, extra: string)

  datatype TestCase = TestCase(input: string, output: string)

  /** What the sandbox is given. */
  datatype Request = Request(language: string, code: string, config: Config, cases: seq<TestCase>)

  /** A message in a consumer's hands; the tag is 0 if it came from the local queue. */
  datatype Task = Task(msg: TaskMessage, tag: nat)

  /** Where a thread is within `run_judge_task`. */
  datatype Stage
    = Looked(problem: int, language: string, code: string)                    // submission read
    | Configured(problem: int, language: string, code: string, config: Config)
    | Prepared(req: Request)                                                   // cases read
    | Marked(req: Request)                                                     // JUDGING written

  /** A row the reclaimer has selected; `judging` until its status has been put back. */
  datatype Stale = Stale(msg: TaskMessage, judging: bool)

  datatype Pc
    = Creating(msg: TaskMessage)            // `create_submission` between INSERT and publish
    | Popped(task: Task)
    | Deferred(task: Task)                  // published again, not yet acknowledged
    | Running(task: Task, stage: Stage)
    | Finished(task: Task, done: bool)      // `run_judge_task` has returned `done`
    | Sweeping(todo: seq<Stale>)            // `reclaim_stale_judging`

  /** `g_probed`, `g_use_rabbit` and whether the connection still stands. */
  datatype Backend = Unprobed | Rabbit(up: bool) | Local

  /** The queue globals of one process and the broker's side of its connection. */
  datatype Proc = Proc(backend: Backend, queue: seq<TaskMessage>, nextTag: nat, unacked: map<nat, Json>)

  datatype Tid = Tid(proc: nat, n: nat)

  /** The broker's queue and the processes. */
  datatype Mq = Mq(ready: multiset<Json>, procs: map<nat, Proc>)

  datatype Problems = Problems(configs: map<int, Config>, cases: map<int, seq<TestCase>>)

  /** A thread without a program counter is between two rounds of its loop. */
  datatype State = State(
    rows: map<int, Row>,
    problems: Problems,
    mq: Mq,
    threads: map<Tid, Pc>,
    accepted: set<int>,     // ids returned by `create_submission`
    orphaned: set<int>)     // ids of which a copy was dropped since the last publish

  // ------------------------------------------------------------------------- the queue

  ghost function Bodies(m: map<nat, Json>): (r: multiset<Json>)
    ensures forall k :: k in m ==> m[k] in r
    ensures forall b :: b in r ==> exists k :: k in m && m[k] == b
    decreases m.Keys
  {
    if m == map[] then multiset{}
    else
      var k :| k in m;
      assert forall j :: j in m && j != k ==> j in m - {k};
      multiset{m[k]} + Bodies(m - {k})
  }

  /** The broker takes back what a lost connection had not acknowledged. */
  ghost function Disconnect(q: Mq, p: nat, backend: Backend): Mq
    requires p in q.procs
  {
    Mq(q.ready + Bodies(q.procs[p].unacked), q.procs[p := q.procs[p].(backend := backend, unacked := map[])])
  }

  /** `g_queue.push`. */
  function Push(q: Mq, p: nat, m: TaskMessage): Mq
    requires p in q.procs
  {
    q.(procs := q.procs[p := q.procs[p].(queue := q.procs[p].queue + [m])])
  }

  datatype Route = ToBroker | AfterFailure | InProcess

  /** The way a publish goes when `sends` tells whether the broker takes it. */
  function RouteFor(b: Backend, sends: bool): Route {
    if !b.Rabbit? then InProcess else if sends then ToBroker else AfterFailure
  }

  predicate CanSend(q: Mq, p: nat, how: Route) {
    p in q.procs &&
    match how
    case ToBroker => q.procs[p].backend == Rabbit(true)
    case AfterFailure => q.procs[p].backend.Rabbit?
    case InProcess => q.procs[p].backend == Local
  }

  /** `publish_judge_task`: a failed publish drops the connection and goes on locally. */
  ghost function Send(q: Mq, p: nat, m: TaskMessage, how: Route): Mq
    requires CanSend(q, p, how)
  {
    match how
    case ToBroker => q.(ready := q.ready + multiset{Encode(m)})
    case AfterFailure => Push(Disconnect(q, p, Local), p, m)
    case InProcess => Push(q, p, m)
  }

  /** basic.get, on the broker's side; a body that does not parse is acknowledged on the spot. */
  function Deliver(q: Mq, p: nat, body: Json): Mq
    requires p in q.procs
  {
    var was := q.procs[p];
    var next := was.(nextTag := was.nextTag + 1);
    Mq(q.ready - multiset{body},
       q.procs[p := if Parse(body).Some? then next.(unacked := was.unacked[was.nextTag := body]) else next])
  }

  function DropFront(q: Mq, p: nat): Mq
    requires p in q.procs && q.procs[p].queue != []
  {
    q.(procs := q.procs[p := q.procs[p].(queue := q.procs[p].queue[1..])])
  }

  /** `ack_judge_task`. */
  function Acknowledge(q: Mq, p: nat, tag: nat): Mq
    requires p in q.procs
  {
    if tag == 0 || !q.procs[p].backend.Rabbit? then q
    else q.(procs := q.procs[p := q.procs[p].(unacked := q.procs[p].unacked - {tag})])
  }

  // ----------------------------------------------------------------------- the threads

  function Put(threads: map<Tid, Pc>, t: Tid, next: Option<Pc>): map<Tid, Pc> {
    match next
    case None => threads - {t}
    case Some(pc) => threads[t := pc]
  }

  /** The rows left to reclaim. */
  function Rest(todo: seq<Stale>): Option<Pc>
    requires todo != []
  {
    if |todo| == 1 then None else Some(Sweeping(todo[1..]))
  }

  /** The message the thread may publish next. */
  function Outgoing(pc: Pc): Option<TaskMessage> {
    match pc
    case Creating(m) => Some(m)
    case Popped(task) => Some(task.msg)
    case Sweeping(todo) => if todo != [] && !todo[0].judging then Some(todo[0].msg) else None
    case _ => None
  }

  function Sent(pc: Pc): Option<Pc>
    requires Outgoing(pc).Some?
  {
    match pc
    case Creating(m) => None
    case Popped(task) => Some(Deferred(task))
    case Sweeping(todo) => Rest(todo)
  }

  /** `publish_judge_task` has returned 0. */
  function NotSent(pc: Pc): Option<Pc>
    requires Outgoing(pc).Some?
  {
    match pc
    case Creating(m) => None
    case Popped(task) => Some(pc)
    case Sweeping(todo) => Rest(todo)
  }

  predicate HasTask(pc: Pc) { pc.Popped? || pc.Deferred? || pc.Running? || pc.Finished? }

  /** The thread still answers for its message: it has neither passed it on nor judged it. */
  predicate Responsible(pc: Pc) { HasTask(pc) && !pc.Deferred? && !(pc.Finished? && pc.done) }

  predicate Answers(pc: Pc, id: int) { Responsible(pc) && pc.task.msg.submission == id }

  /** The message can be lost with its process: the broker has no copy of it. */
  predicate OnlyHere(p: Proc, pc: Pc) { Responsible(pc) && (pc.task.tag == 0 || p.backend != Rabbit(true)) }

  ghost function LostWith(q: Mq, threads: map<Tid, Pc>, p: nat): set<int>
    requires p in q.procs
  {
    (set m | m in q.procs[p].queue :: m.submission) +
    (set t | t in threads && t.proc == p && OnlyHere(q.procs[p], threads[t]) :: threads[t].task.msg.submission)
  }

  function Without(threads: map<Tid, Pc>, p: nat): map<Tid, Pc> { map t | t in threads && t.proc != p :: threads[t] }

  function SetStatus(rows: map<int, Row>, id: int, status: Status): map<int, Row> {
    if id in rows then rows[id := rows[id].(status := status)] else rows
  }

  /** The status read decides between an early return and going on. */
  function ReadRow(rows: map<int, Row>, task: Task): Pc {
    var id := task.msg.submission;
    if id !in rows then Finished(task, false)
    else
      var row := rows[id];
      if row.status.Final? then Finished(task, true)
      else if row.language == "" || row.code == "" then Finished(task, false)
      else Running(task, Looked(row.problem, row.language, row.code))
  }

  function ReadConfig(ps: Problems, task: Task, st: Stage): Pc
    requires st.Looked?
  {
    if st.problem in ps.configs then Running(task, Configured(st.problem, st.language, st.code, ps.configs[st.problem]))
    else Finished(task, false)
  }

  function ReadCases(ps: Problems, task: Task, st: Stage): Pc
    requires st.Configured?
  {
    if st.problem in ps.cases && ps.cases[st.problem] != []
    then Running(task, Prepared(Request(st.language, st.code, st.config, ps.cases[st.problem])))
    else Finished(task, false)
  }

  function StaleRow(id: int, row: Row): Stale {
    Stale(TaskMessage(id, row.problem, row.language), row.status == Judging)
  }

  function Selected(rows: map<int, Row>, ids: seq<int>): (todo: seq<Stale>)
    requires forall i :: 0 <= i < |ids| ==> ids[i] in rows
    ensures |todo| == |ids| && forall i :: 0 <= i < |ids| ==> todo[i] == StaleRow(ids[i], rows[ids[i]])
  {
    if ids == [] then [] else [StaleRow(ids[0], rows[ids[0]])] + Selected(rows, ids[1..])
  }

  // --------------------------------------------------------------------------- events

  datatype Event
    = Start(p: nat)
    | Probe(p: nat, up: bool)                        // first use: connect or stay local
    | LinkDown(p: nat)                               // the broker closes the connection
    | CallFails(p: nat)                              // basic.get fails, fall back
    | Crash(p: nat)
    | Insert(t: Tid, id: int, row: Row, ok: bool)    // INSERT ... 'PENDING'
    | Publish(t: Tid, how: Route)
    | Refuse(t: Tid)                                 // publish of an invalid message
    | Get(t: Tid, body: Json)                        // basic.get
    | PopLocal(t: Tid)
    | Ack(t: Tid)
    | Look(t: Tid)                                   // SELECT the submission
    | LookConfig(t: Tid)                             // SELECT the problem
    | LookCases(t: Tid)                              // SELECT the cases
    | Fail(t: Tid)                                   // no connection, or a SELECT fails
    | Mark(t: Tid, applied: bool, ok: bool)          // UPDATE ... 'JUDGING'
    | Conclude(t: Tid, outcome: Outcome, applied: bool, ok: bool)   // sandbox, final UPDATE
    | Select(t: Tid, ids: seq<int>)                  // the stale rows
    | Reset(t: Tid, applied: bool, ok: bool)         // UPDATE ... WHERE status='JUDGING'
    | Edit(problem: int, config: Option<Config>, cases: seq<TestCase>)

  predicate Idle(s: State, t: Tid) { t !in s.threads && t.proc in s.mq.procs }

  predicate At(s: State, t: Tid) { t in s.threads && t.proc in s.mq.procs }

  predicate InStage(s: State, t: Tid) { At(s, t) && s.threads[t].Running? }

  predicate IsFinal(rows: map<int, Row>, id: int) { id in rows && rows[id].status.Final? }

  predicate IsOpen(rows: map<int, Row>, id: int) { id in rows && !rows[id].status.Final? }

  /** The events that only move their thread on and perhaps write a row. */
  predicate MovesThread(e: Event) {
    e.Insert? || e.Refuse? || e.Look? || e.LookConfig? || e.LookCases? || e.Fail? || e.Mark? || e.Conclude? ||
    e.Select? || e.Reset?
  }

  predicate CanMove(s: State, e: Event)
    requires MovesThread(e)
  {
    match e
    case Insert(t, id, row, ok) =>
      Idle(s, t) && id > 0 && id !in s.rows && row.status == Pending &&
      row.problem > 0 && row.language != "" && row.code != ""
    case Refuse(t) => At(s, t) && Outgoing(s.threads[t]).Some? && !Valid(Outgoing(s.threads[t]).value)
    case Look(t) => At(s, t) && s.threads[t].Popped?
    case LookConfig(t) => InStage(s, t) && s.threads[t].stage.Looked?
    case LookCases(t) => InStage(s, t) && s.threads[t].stage.Configured?
    case Fail(t) => (At(s, t) && s.threads[t].Popped?) || (InStage(s, t) && !s.threads[t].stage.Marked?)
    case Mark(t, applied, ok) => InStage(s, t) && s.threads[t].stage.Prepared? && (ok ==> applied)
    case Conclude(t, outcome, applied, ok) =>
      InStage(s, t) && s.threads[t].stage.Marked? && (ok ==> applied) && (applied ==> Recognised(outcome))
    case Select(t, ids) => Idle(s, t) && ids != [] && forall i :: 0 <= i < |ids| ==> IsOpen(s.rows, ids[i])
    case Reset(t, applied, ok) =>
      At(s, t) && s.threads[t].Sweeping? && s.threads[t].todo != [] && s.threads[t].todo[0].judging && (ok ==> applied)
  }

  predicate CanCall(s: State, e: Event)
    requires !MovesThread(e)
  {
    match e
    case Start(p) => p !in s.mq.procs
    case Probe(p, up) => p in s.mq.procs && s.mq.procs[p].backend == Unprobed
    case LinkDown(p) => p in s.mq.procs && s.mq.procs[p].backend == Rabbit(true)
    case CallFails(p) => p in s.mq.procs && s.mq.procs[p].backend.Rabbit?
    case Crash(p) => p in s.mq.procs
    case Publish(t, how) =>
      At(s, t) && CanSend(s.mq, t.proc, how) &&
      Outgoing(s.threads[t]).Some? && Valid(Outgoing(s.threads[t]).value)
    case Get(t, body) => Idle(s, t) && s.mq.procs[t.proc].backend == Rabbit(true) && body in s.mq.ready
    case PopLocal(t) => Idle(s, t) && s.mq.procs[t.proc].backend == Local && s.mq.procs[t.proc].queue != []
    case Ack(t) => At(s, t) && (s.threads[t].Deferred? || s.threads[t].Finished?)
    case Edit(problem, config, cases) => true
  }

  predicate Enabled(s: State, e: Event) { if MovesThread(e) then CanMove(s, e) else CanCall(s, e) }

  /** The guarded UPDATE of the reclaimer finds the row JUDGING. */
  predicate Hits(rows: map<int, Row>, one: Stale) {
    one.msg.submission in rows && rows[one.msg.submission].status == Judging
  }

  function Next(s: State, e: Event): Option<Pc>
    requires MovesThread(e) && CanMove(s, e)
  {
    match e
    case Insert(t, id, row, ok) => if ok then Some(Creating(TaskMessage(id, row.problem, row.language))) else None
    case Refuse(t) => NotSent(s.threads[t])
    case Look(t) => Some(ReadRow(s.rows, s.threads[t].task))
    case LookConfig(t) => Some(ReadConfig(s.problems, s.threads[t].task, s.threads[t].stage))
    case LookCases(t) => Some(ReadCases(s.problems, s.threads[t].task, s.threads[t].stage))
    case Fail(t) => Some(Finished(s.threads[t].task, false))
    case Mark(t, applied, ok) =>
      Some(if ok then Running(s.threads[t].task, Marked(s.threads[t].stage.req)) else Finished(s.threads[t].task, false))
    case Conclude(t, outcome, applied, ok) => Some(Finished(s.threads[t].task, ok))
    case Select(t, ids) => Some(Sweeping(Selected(s.rows, ids)))
    case Reset(t, applied, ok) =>
      var todo := s.threads[t].todo;
      if Hits(s.rows, todo[0]) && ok then Some(Sweeping([todo[0].(judging := false)] + todo[1..])) else Rest(todo)
  }

  function Written(s: State, e: Event): map<int, Row>
    requires MovesThread(e) && CanMove(s, e)
  {
    match e
    case Insert(t, id, row, ok) => s.rows[id := row]
    case Mark(t, applied, ok) =>
      if applied then SetStatus(s.rows, s.threads[t].task.msg.submission, Judging) else s.rows
    case Conclude(t, outcome, applied, ok) =>
      if applied then SetStatus(s.rows, s.threads[t].task.msg.submission, Final(outcome)) else s.rows
    case Reset(t, applied, ok) =>
      var one := s.threads[t].todo[0];
      if Hits(s.rows, one) && applied then SetStatus(s.rows, one.msg.submission, Pending) else s.rows
    case _ => s.rows
  }

  function Edited(ps: Problems, problem: int, config: Option<Config>, cases: seq<TestCase>): Problems {
    Problems(if config.Some? then ps.configs[problem := config.value] else ps.configs - {problem},
             ps.cases[problem := cases])
  }

  /** The queue after the call. */
  ghost function MqAfter(s: State, e: Event): Mq
    requires !MovesThread(e) && CanCall(s, e)
  {
    var q := s.mq;
    match e
    case Start(p) => q.(procs := q.procs[p := Proc(Unprobed, [], 1, map[])])
    case Probe(p, up) => q.(procs := q.procs[p := q.procs[p].(backend := if up then Rabbit(true) else Local)])
    case LinkDown(p) => Disconnect(q, p, Rabbit(false))
    case CallFails(p) => Disconnect(q, p, Local)
    case Crash(p) => Mq(Disconnect(q, p, Local).ready, q.procs - {p})
    case Publish(t, how) => Send(q, t.proc, Outgoing(s.threads[t]).value, how)
    case Get(t, body) => Deliver(q, t.proc, body)
    case PopLocal(t) => DropFront(q, t.proc)
    case Ack(t) => Acknowledge(q, t.proc, s.threads[t].task.tag)
    case Edit(problem, config, cases) => q
  }

  function ThreadsAfter(s: State, e: Event): map<Tid, Pc>
    requires !MovesThread(e) && CanCall(s, e)
  {
    match e
    case Crash(p) => Without(s.threads, p)
    case Publish(t, how) => Put(s.threads, t, Sent(s.threads[t]))
    case Get(t, body) =>
      if Parse(body).None? then s.threads
      else s.threads[t := Popped(Task(Parse(body).value, s.mq.procs[t.proc].nextTag))]
    case PopLocal(t) => s.threads[t := Popped(Task(s.mq.procs[t.proc].queue[0], 0))]
    case Ack(t) => s.threads - {t}
    case _ => s.threads
  }

  function AcceptedAfter(s: State, e: Event): set<int>
    requires !MovesThread(e) && CanCall(s, e)
  {
    if e.Publish? && s.threads[e.t].Creating? then s.accepted + {s.threads[e.t].msg.submission} else s.accepted
  }

  /** A failed attempt is acknowledged like any other. */
  ghost function OrphanedAfter(s: State, e: Event): set<int>
    requires !MovesThread(e) && CanCall(s, e)
  {
    match e
    case Crash(p) => s.orphaned + LostWith(s.mq, s.threads, p)
    case Publish(t, how) => s.orphaned - {Outgoing(s.threads[t]).value.submission}
    case Ack(t) =>
      if s.threads[t].Finished? && !s.threads[t].done then s.orphaned + {s.threads[t].task.msg.submission} else s.orphaned
    case _ => s.orphaned
  }

  ghost function Apply(s: State, e: Event): State
    requires Enabled(s, e)
  {
    if MovesThread(e) then s.(rows := Written(s, e), threads := Put(s.threads, e.t, Next(s, e)))
    else
      s.(mq := MqAfter(s, e), threads := ThreadsAfter(s, e),
         accepted := AcceptedAfter(s, e), orphaned := OrphanedAfter(s, e),
         problems := if e.Edit? then Edited(s.problems, e.problem, e.config, e.cases) else s.problems)
  }

  // ----------------------------------------------------------------------------- runs

  ghost predicate IsRun(s: State, es: seq<Event>)
    decreases |es|
  {
    es == [] || (Enabled(s, es[0]) && IsRun(Apply(s, es[0]), es[1..]))
  }

  ghost function After(s: State, es: seq<Event>): State
    requires IsRun(s, es)
    decreases |es|
  {
    if es == [] then s else After(Apply(s, es[0]), es[1..])
  }

  /** No process, row or message yet; the problems are whatever they are. */
  predicate Initial(s: State) {
    s.rows == map[] && s.mq == Mq(multiset{}, map[]) && s.threads == map[] && s.accepted == {} && s.orphaned == {}
  }

  ghost predicate Reachable(s: State) {
    exists s0, es :: Initial(s0) && IsRun(s0, es) && After(s0, es) == s
  }

  lemma {:induction false} RunThenRun(s: State, es: seq<Event>, fs: seq<Event>)
    requires IsRun(s, es) && IsRun(After(s, es), fs)
    ensures IsRun(s, es + fs) && After(s, es + fs) == After(After(s, es), fs)
    decreases |es|
  {
    hide Apply, Enabled;
    if es == [] {
      assert [] + fs == fs;
    } else {
      RunThenRun(Apply(s, es[0]), es[1..], fs);
      assert (es + fs)[1..] == es[1..] + fs;
    }
  }
}
