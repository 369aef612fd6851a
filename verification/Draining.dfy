/** Draining ends: every event of a consumer or of a publish already begun uses up some of a
    finite load, and while something is left to do such an event is possible. */
module Draining {
  import opened Wrappers
  import opened Verdict
  import opened Delivery
  import opened DeliverySafety
  import opened SubmissionStatus
  import opened Settling

  // ------------------------------------------------------------------------- the load

  /** What a waiting message still costs: it has to be got and then carried through. */
  const MESSAGE := 8

  function StaleLoad(todo: seq<Stale>): nat {
    if todo == [] then 0 else (if todo[0].judging then MESSAGE + 2 else MESSAGE + 1) + StaleLoad(todo[1..])
  }

  function PcLoad(pc: Pc): nat {
    match pc
    case Creating(_) => MESSAGE + 1
    case Popped(_) => 7
    case Running(_, stage) =>
      (match stage case Looked(_, _, _) => 6 case Configured(_, _, _, _) => 5 case Prepared(_) => 4 case Marked(_) => 3)
    case Deferred(_) => 2
    case Finished(_, _) => 2
    case Sweeping(todo) => StaleLoad(todo)
  }

  function ProcLoad(p: Proc): nat { MESSAGE * |p.queue| + if p.backend == Unprobed then 1 else 0 }

  ghost function AnyThread(threads: map<Tid, Pc>): (t: Tid)
    requires threads != map[]
    ensures t in threads
  {
    var t :| t in threads;
    t
  }

  ghost function ThreadsLoad(threads: map<Tid, Pc>): nat
    decreases threads.Keys
  {
    if threads == map[] then 0
    else
      var t := AnyThread(threads);
      PcLoad(threads[t]) + ThreadsLoad(threads - {t})
  }

  ghost function AnyProc(procs: map<nat, Proc>): (p: nat)
    requires procs != map[]
    ensures p in procs
  {
    var p :| p in procs;
    p
  }

  ghost function ProcsLoad(procs: map<nat, Proc>): nat
    decreases procs.Keys
  {
    if procs == map[] then 0
    else
      var p := AnyProc(procs);
      ProcLoad(procs[p]) + ProcsLoad(procs - {p})
  }

  ghost function Load(s: State): nat { MESSAGE * |s.mq.ready| + ProcsLoad(s.mq.procs) + ThreadsLoad(s.threads) }

  lemma {:induction false} WithoutThread(threads: map<Tid, Pc>, t: Tid)
    requires t in threads
    ensures ThreadsLoad(threads) == PcLoad(threads[t]) + ThreadsLoad(threads - {t})
    decreases threads.Keys
  {
    hide PcLoad;
    var u := AnyThread(threads);
    if u != t {
      WithoutThread(threads - {u}, t);
      WithoutThread(threads - {t}, u);
      assert threads - {u} - {t} == threads - {t} - {u};
    }
  }

  lemma {:induction false} WithoutProc(procs: map<nat, Proc>, p: nat)
    requires p in procs
    ensures ProcsLoad(procs) == ProcLoad(procs[p]) + ProcsLoad(procs - {p})
    decreases procs.Keys
  {
    hide ProcLoad;
    var q := AnyProc(procs);
    if q != p {
      WithoutProc(procs - {q}, p);
      WithoutProc(procs - {p}, q);
      assert procs - {q} - {p} == procs - {p} - {q};
    }
  }

  /** Load of a thread, nothing if it is idle. */
  function LoadAt(threads: map<Tid, Pc>, t: Tid): nat { if t in threads then PcLoad(threads[t]) else 0 }

  lemma PutLoad(threads: map<Tid, Pc>, t: Tid, next: Option<Pc>)
    ensures ThreadsLoad(Put(threads, t, next)) ==
              ThreadsLoad(threads) - LoadAt(threads, t) + (if next.None? then 0 else PcLoad(next.value))
  {
    hide ThreadsLoad, PcLoad;
    var rest := threads - {t};
    if t in threads {
      WithoutThread(threads, t);
    } else {
      assert rest == threads;
    }
    if next.Some? {
      var put := threads[t := next.value];
      WithoutThread(put, t);
      assert put - {t} == rest;
    }
  }

  lemma SetProcLoad(procs: map<nat, Proc>, p: nat, q: Proc)
    requires p in procs
    ensures ProcsLoad(procs[p := q]) == ProcsLoad(procs) - ProcLoad(procs[p]) + ProcLoad(q)
  {
    hide ProcsLoad, ProcLoad;
    WithoutProc(procs, p);
    WithoutProc(procs[p := q], p);
    assert procs[p := q] - {p} == procs - {p};
  }

  // ------------------------------------------------------------------ what uses it up

  /** The events of a drain: those of consumers that do not defer, and those that finish a
      publish or a sweep already begun, without a fresh failure of the connection. */
  predicate Working(s: State, e: Event)
    requires Enabled(s, e)
  {
    match e
    case Probe(_, _) => true
    case Publish(t, how) => !s.threads[t].Popped? && how == RouteOf(s.mq.procs[t.proc].backend)
    case Get(_, _) => true
    case PopLocal(_) => true
    case Ack(_) => true
    case Look(_) => true
    case LookConfig(_) => true
    case LookCases(_) => true
    case Fail(_) => true
    case Mark(_, _, _) => true
    case Conclude(_, _, _, _) => true
    case Reset(_, _, _) => true
    case _ => false
  }

  lemma MoveUses(s: State, e: Event)
    requires MovesThread(e) && Enabled(s, e) && Working(s, e)
    ensures e.t in s.threads
    ensures (if Next(s, e).None? then 0 else PcLoad(Next(s, e).value)) < PcLoad(s.threads[e.t])
  {
    hide Recognised, Hits;
    if e.Reset? {
      var todo := s.threads[e.t].todo;
      assert ([todo[0].(judging := false)] + todo[1..])[1..] == todo[1..];
    }
  }

  lemma SendLoad(q: Mq, p: nat, m: TaskMessage)
    requires ProcsOk(q.procs) && p in q.procs && CanSend(q, p, RouteOf(q.procs[p].backend))
    ensures var r := Send(q, p, m, RouteOf(q.procs[p].backend));
            MESSAGE * |r.ready| + ProcsLoad(r.procs) == MESSAGE * |q.ready| + ProcsLoad(q.procs) + MESSAGE
  {
    hide Encode, ProcsLoad;
    assert ProcOk(q.procs[p]);
    var r := Send(q, p, m, RouteOf(q.procs[p].backend));
    if q.procs[p].backend != Rabbit(true) {
      SetProcLoad(q.procs, p, r.procs[p]);
      assert r.procs == q.procs[p := r.procs[p]];
      NoBodies();
      assert q.ready + multiset{} == q.ready;
    }
  }

  lemma NoBodies()
    ensures Bodies(map[]) == multiset{}
  {
  }

  lemma SentLoad(pc: Pc)
    requires Outgoing(pc).Some? && !pc.Popped?
    ensures (if Sent(pc).None? then 0 else PcLoad(Sent(pc).value)) + MESSAGE < PcLoad(pc)
  {
  }

  lemma PublishUses(s: State, e: Event)
    requires WellFormed(s) && Enabled(s, e) && e.Publish? && Working(s, e)
    ensures Load(Apply(s, e)) < Load(s)
  {
    hide Send, CanSend, ThreadsLoad, ProcsLoad, PcLoad, ThreadsOk, TagsDistinct, RowsOk, ReadyOk, Valid;
    var pc := s.threads[e.t];
    SendLoad(s.mq, e.t.proc, Outgoing(pc).value);
    SentLoad(pc);
    PutLoad(s.threads, e.t, Sent(pc));
  }

  lemma TakeUses(s: State, e: Event)
    requires Enabled(s, e) && (e.Get? || e.PopLocal?)
    ensures Load(Apply(s, e)) < Load(s)
  {
    hide Parse, ThreadsLoad, ProcsLoad;
    var p, r := e.t.proc, Apply(s, e);
    SetProcLoad(s.mq.procs, p, r.mq.procs[p]);
    if e.t in r.threads {
      PutLoad(s.threads, e.t, Some(r.threads[e.t]));
    }
  }

  lemma AckUses(s: State, e: Event)
    requires Enabled(s, e) && (e.Ack? || e.Probe?)
    ensures Load(Apply(s, e)) < Load(s)
  {
    hide ThreadsLoad, ProcsLoad;
    var r := Apply(s, e);
    if e.Ack? {
      SetProcLoad(s.mq.procs, e.t.proc, r.mq.procs[e.t.proc]);
      assert s.mq.procs[e.t.proc := s.mq.procs[e.t.proc]] == s.mq.procs;
      PutLoad(s.threads, e.t, None);
    } else {
      SetProcLoad(s.mq.procs, e.p, r.mq.procs[e.p]);
    }
  }

  lemma StepUses(s: State, e: Event)
    requires WellFormed(s) && Enabled(s, e) && Working(s, e)
    ensures Load(Apply(s, e)) < Load(s)
  {
    hide WellFormed, ThreadsLoad, ProcsLoad, PcLoad, MqAfter, ThreadsAfter, CanMove, CanCall;
    if MovesThread(e) {
      hide Next, Written, Working;
      MoveUses(s, e);
      PutLoad(s.threads, e.t, Next(s, e));
    } else if e.Publish? {
      PublishUses(s, e);
    } else if e.Get? || e.PopLocal? {
      TakeUses(s, e);
    } else {
      AckUses(s, e);
    }
  }

  ghost predicate AllWorking(s: State, es: seq<Event>)
    requires IsRun(s, es)
    decreases |es|
  {
    es != [] ==> Working(s, es[0]) && AllWorking(Apply(s, es[0]), es[1..])
  }

  /** No drain is longer than the load it starts with. */
  lemma {:induction false} DrainEnds(s: State, es: seq<Event>)
    requires WellFormed(s) && IsRun(s, es) && AllWorking(s, es)
    ensures |es| + Load(After(s, es)) <= Load(s)
    decreases |es|
  {
    hide WellFormed, Apply, Enabled, Working, Load;
    if es != [] {
      StepUses(s, es[0]);
      StepKeepsWellFormed(s, es[0]);
      DrainEnds(Apply(s, es[0]), es[1..]);
    }
  }

  // ----------------------------------------------------------------- while there is any

  lemma JudgeGoesOn(s: State, t: Tid, verdict: Request -> Outcome) returns (e: Event)
    requires At(s, t) && Sound(verdict) && (s.threads[t].Popped? || s.threads[t].Running?)
    ensures Enabled(s, e) && Working(s, e) && Smooth(s, e, verdict) && !e.Probe?
  {
    hide Recognised;
    var pc := s.threads[t];
    if pc.Popped? {
      e := Look(t);
    } else {
      match pc.stage
      case Looked(_, _, _) => e := LookConfig(t);
      case Configured(_, _, _, _) => e := LookCases(t);
      case Prepared(_) => e := Mark(t, true, true);
      case Marked(req) => e := Conclude(t, verdict(req), verdict(req).Write?, verdict(req).Write?);
    }
  }

  lemma ThreadGoesOn(s: State, t: Tid, verdict: Request -> Outcome) returns (e: Event)
    requires WellFormed(s) && t in s.threads && Sound(verdict)
    ensures Enabled(s, e) && Working(s, e) && Smooth(s, e, verdict) && (e.Probe? ==> !e.up)
  {
    hide TagsDistinct, RowsOk, ReadyOk, ProcsOk, TagOk, Recognised;
    assert ThreadOk(s.mq.procs, t, s.threads[t]);
    var pc := s.threads[t];
    if pc.Popped? || pc.Running? {
      e := JudgeGoesOn(s, t, verdict);
    } else if Outgoing(pc).Some? {
      e := if s.mq.procs[t.proc].backend == Unprobed then Probe(t.proc, false)
           else Publish(t, RouteOf(s.mq.procs[t.proc].backend));
    } else if pc.Sweeping? {
      e := Reset(t, true, true);
    } else {
      e := Ack(t);
    }
  }

  /** Somebody can take what the broker has, or there is no broker to speak of. */
  ghost predicate Served(q: Mq, p: nat) {
    (p in q.procs && q.procs[p].backend == Rabbit(true)) ||
    (q.ready == multiset{} && forall o :: o in q.procs ==> q.procs[o].backend != Rabbit(true))
  }

  lemma MessageIsTaken(s: State, verdict: Request -> Outcome, p: nat) returns (e: Event)
    requires WellFormed(s) && s.threads == map[] && !Quiet(s) && Served(s.mq, p)
    ensures Enabled(s, e) && Working(s, e) && Smooth(s, e, verdict) && !e.Probe?
  {
    hide TagsDistinct, RowsOk, ReadyOk, ThreadsOk;
    if b :| b in s.mq.ready {
      assert s.mq.ready != multiset{};
      e := Get(Tid(p, 0), b);
    } else {
      assert s.mq.ready == multiset{};
      var q :| q in s.mq.procs && s.mq.procs[q].queue != [];
      assert ProcOk(s.mq.procs[q]);
      e := PopLocal(Tid(q, 0));
    }
  }

  /** As long as the system has not come to rest, a drain can go on without any failure.
      With `DrainEnds`: every drain comes to rest. */
  lemma DrainGoesOn(s: State, verdict: Request -> Outcome, p: nat) returns (e: Event)
    requires WellFormed(s) && Sound(verdict) && !Quiet(s) && (s.threads == map[] ==> Served(s.mq, p))
    ensures Enabled(s, e) && Working(s, e) && Smooth(s, e, verdict) && (e.Probe? ==> !e.up)
  {
    hide WellFormed, Quiet, Served, Enabled, Working, Smooth;
    if t :| t in s.threads {
      e := ThreadGoesOn(s, t, verdict);
    } else {
      assert s.threads == map[];
      e := MessageIsTaken(s, verdict, p);
    }
  }

  lemma ServedAfterSend(q: Mq, p: nat, o: nat, m: TaskMessage)
    requires ProcsOk(q.procs) && Served(q, p) && o in q.procs && CanSend(q, o, RouteOf(q.procs[o].backend))
    ensures Served(Send(q, o, m, RouteOf(q.procs[o].backend)), p)
  {
    hide Encode;
    assert ProcOk(q.procs[o]);
    NoBodies();
  }

  /** One process changes, not in having a standing connection, and no message appears. */
  lemma ServedAfterChange(q: Mq, p: nat, o: nat, was: Proc, ready: multiset<Json>)
    requires Served(q, p) && o in q.procs && ready <= q.ready
    requires was.backend == Rabbit(true) <==> q.procs[o].backend == Rabbit(true)
    ensures Served(Mq(ready, q.procs[o := was]), p)
  {
  }

  lemma ServedAfterCall(s: State, e: Event, p: nat)
    requires !MovesThread(e) && CanCall(s, e) && Served(s.mq, p)
    requires e.Get? || e.PopLocal? || e.Ack? || (e.Probe? && !e.up)
    ensures Served(MqAfter(s, e), p)
  {
    hide Parse, Served;
    var o := if e.Probe? then e.p else e.t.proc;
    var r := MqAfter(s, e);
    ServedAfterChange(s.mq, p, o, r.procs[o], r.ready);
    assert r.procs == s.mq.procs[o := r.procs[o]];
  }

  lemma StaysServed(s: State, e: Event, p: nat)
    requires WellFormed(s) && Enabled(s, e) && Working(s, e) && (e.Probe? ==> !e.up) && Served(s.mq, p)
    ensures Served(Apply(s, e).mq, p)
  {
    hide ThreadsOk, TagsDistinct, RowsOk, ReadyOk, ProcsOk, Served, Send, CanSend, Next, Written, CanMove, Outgoing, RouteOf;
    if e.Publish? {
      ServedAfterSend(s.mq, p, e.t.proc, Outgoing(s.threads[e.t]).value);
    } else if !MovesThread(e) {
      ServedAfterCall(s, e, p);
    }
  }
}
