/** The queue globals of nl-common/src/mq.cpp as an object: publishing, popping and
    acknowledging in one process, each call made under the mutex.  What the calls do to the
    broker and the local queue is what the events of the delivery system do. */
module JudgeQueue {
  import opened Wrappers
  import opened Delivery

  /** The outcome of basic.get. */
  datatype Got = CallFailed | Empty | Body(json: Json)

  /** The first call of a process connects, or settles for its own queue. */
  function Probed(q: Mq, connects: bool): (r: Mq)
    requires 0 in q.procs
    ensures 0 in r.procs
  {
    if q.procs[0].backend != Unprobed then q
    else q.(procs := q.procs[0 := q.procs[0].(backend := if connects then Rabbit(true) else Local)])
  }

  /** The queue after `try_pop_judge_task`: poison is acknowledged and dropped, an empty
      queue gives nothing, and a failing call falls back for good. */
  ghost function AfterPop(q: Mq, got: Got): Mq
    requires 0 in q.procs
  {
    if q.procs[0].backend.Rabbit? then
      match got
      case CallFailed => Disconnect(q, 0, Local)
      case Empty => q
      case Body(json) => Deliver(q, 0, json)
    else if q.procs[0].queue == [] then q
    else DropFront(q, 0)
  }

  /** What it hands out. */
  function Delivered(q: Mq, got: Got): Option<Task>
    requires 0 in q.procs
  {
    var p := q.procs[0];
    if p.backend.Rabbit? then
      if got.Body? && Parse(got.json).Some? then Some(Task(Parse(got.json).value, p.nextTag)) else None
    else if p.queue == [] then None
    else Some(Task(p.queue[0], 0))
  }

  function Taken(threads: map<Tid, Pc>, t: Tid, task: Option<Task>): map<Tid, Pc> {
    if task.None? then threads else threads[t := Popped(task.value)]
  }

  /** They are the delivery system's events of process 0: `Probe`, `CallFails`, ... */
  lemma ProbeIsEvent(s: State, connects: bool)
    requires 0 in s.mq.procs
    ensures var e := Event.Probe(0, connects);
            if Enabled(s, e) then Apply(s, e).mq == Probed(s.mq, connects) else Probed(s.mq, connects) == s.mq
  {
  }

  lemma FallIsEvent(s: State)
    requires Enabled(s, CallFails(0))
    ensures Apply(s, CallFails(0)).mq == AfterPop(s.mq, CallFailed) && Delivered(s.mq, CallFailed) == None
  {
  }

  /** ... `Get` ... */
  lemma GetIsEvent(s: State, t: Tid, body: Json)
    requires t.proc == 0 && Enabled(s, Get(t, body))
    ensures var r := Apply(s, Get(t, body));
            r.mq == AfterPop(s.mq, Body(body)) && r.threads == Taken(s.threads, t, Delivered(s.mq, Body(body)))
  {
    hide Parse, Bodies, Deliver;
  }

  /** ... and `PopLocal`. */
  lemma PopIsEvent(s: State, t: Tid, got: Got)
    requires t.proc == 0 && Enabled(s, PopLocal(t))
    ensures var r := Apply(s, PopLocal(t));
            r.mq == AfterPop(s.mq, got) && r.threads == Taken(s.threads, t, Delivered(s.mq, got))
  {
    hide Parse, Bodies;
  }

  class Queue {
    var probed: bool                     // g_probed
    var useRabbit: bool                  // g_use_rabbit
    var queue: seq<TaskMessage>          // g_queue
    var nextTag: nat                     // of the channel
    ghost var standing: bool             // the broker has not closed the connection
    ghost var unacked: map<nat, Json>    // kept by the broker for this connection
    ghost var ready: multiset<Json>      // the broker's queue

    ghost predicate Consistent()
      reads this
    {
      (!probed ==> !useRabbit) && (standing ==> useRabbit) && forall i :: 0 <= i < |queue| ==> Valid(queue[i])
    }

    ghost function BackendNow(): Backend
      reads this
    {
      if !probed then Unprobed else if useRabbit then Rabbit(standing) else Local
    }

    /** The process is number 0. */
    ghost function View(): Mq
      reads this
    {
      Mq(ready, map[0 := Proc(BackendNow(), queue, nextTag, unacked)])
    }

    constructor (ghost broker: multiset<Json>)
      ensures Consistent() && View() == Mq(broker, map[0 := Proc(Unprobed, [], 1, map[])])
    {
      probed, useRabbit, queue, nextTag := false, false, [], 1;
      standing, unacked, ready := false, map[], broker;
    }

    /** `ensure_backend`: connecting is tried once in the life of the process. */
    method EnsureBackend(connects: bool)
      requires Consistent()
      modifies this`probed, this`useRabbit, this`standing
      ensures Consistent() && probed && View() == Probed(old(View()), connects)
    {
      if probed {
        return;
      }
      probed := true;
      useRabbit, standing := connects, connects;
    }

    /** `fallback_inprocess`. */
    method Fallback()
      requires Consistent() && probed
      modifies this`useRabbit, this`standing, this`unacked, this`ready
      ensures Consistent() && !useRabbit && View() == Disconnect(old(View()), 0, Local)
    {
      hide Bodies;
      ready := ready + Bodies(unacked);
      useRabbit, standing, unacked := false, false, map[];
    }

    /** `rabbit_publish`: a failing publish drops the connection. */
    method RabbitPublish(m: TaskMessage, sends: bool) returns (ok: bool)
      requires Consistent() && probed && useRabbit && (sends ==> standing)
      modifies this`useRabbit, this`standing, this`unacked, this`ready
      ensures Consistent() && ok == sends
      ensures ok ==> View() == Send(old(View()), 0, m, ToBroker)
      ensures !ok ==> !useRabbit && View() == Disconnect(old(View()), 0, Local)
    {
      hide Encode, Bodies;
      if sends {
        ready := ready + multiset{Encode(m)};
        return true;
      }
      Fallback();
      return false;
    }

    method PushLocal(m: TaskMessage)
      requires Consistent() && Valid(m)
      modifies this`queue
      ensures Consistent() && View() == Push(old(View()), 0, m)
    {
      queue := queue + [m];
    }

    /** `publish_judge_task`: a valid message is always taken, by the broker or locally. */
    method Publish(m: TaskMessage, connects: bool, sends: bool) returns (ok: bool)
      requires Consistent() && (sends && probed && useRabbit ==> standing)
      modifies this
      ensures Consistent() && ok == Valid(m)
      ensures !ok ==> View() == old(View())
      ensures ok ==> probed && (useRabbit ==> standing)
      ensures ok ==> var q := Probed(old(View()), connects);
                     var how := RouteFor(q.procs[0].backend, sends);
                     CanSend(q, 0, how) && View() == Send(q, 0, m, how)
    {
      hide Disconnect;
      if m.submission <= 0 || m.problem <= 0 || m.language == "" {
        return false;
      }
      EnsureBackend(connects);
      assert BackendNow() == Probed(old(View()), connects).procs[0].backend by {
        assert View().procs[0].backend == BackendNow();
      }
      if useRabbit {
        var sent := RabbitPublish(m, sends);
        if sent {
          return true;
        }
      }
      PushLocal(m);
      return true;
    }

    /** `rabbit_try_pop`. */
    method RabbitTryPop(got: Got) returns (task: Option<Task>)
      requires Consistent() && probed && useRabbit && (got.Body? ==> got.json in ready && standing)
      modifies this
      ensures Consistent() && probed
      ensures View() == AfterPop(old(View()), got)
      ensures task == Delivered(old(View()), got)
      ensures task.Some? ==> Valid(task.value.msg) && (useRabbit ==> standing)
    {
      hide Parse, Bodies;
      match got {
        case CallFailed =>
          Fallback();
          return None;
        case Empty =>
          return None;
        case Body(json) =>
          ready := ready - multiset{json};
          var tag := nextTag;
          nextTag := nextTag + 1;
          var parsed := Parse(json);
          if parsed.None? {
            return None;
          }
          unacked := unacked[tag := json];
          return Some(Task(parsed.value, tag));
      }
    }

    /** `try_pop_judge_task`. */
    method TryPop(connects: bool, got: Got) returns (task: Option<Task>)
      requires Consistent() && (got.Body? ==> got.json in ready && (probed && useRabbit ==> standing))
      modifies this
      ensures Consistent() && probed
      ensures View() == AfterPop(Probed(old(View()), connects), got)
      ensures task == Delivered(Probed(old(View()), connects), got)
      ensures task.Some? ==> Valid(task.value.msg) && (useRabbit ==> standing)
    {
      hide Parse, Bodies, Deliver, Disconnect;
      EnsureBackend(connects);
      if useRabbit {
        task := RabbitTryPop(got);
        return;
      }
      if queue == [] {
        return None;
      }
      var front := queue[0];
      queue := queue[1..];
      return Some(Task(front, 0));
    }

    /** `ack_judge_task`. */
    method Ack(task: Task)
      requires Consistent()
      modifies this`unacked
      ensures Consistent() && View() == Acknowledge(old(View()), 0, task.tag)
    {
      if task.tag == 0 {
        return;
      }
      if !useRabbit {
        return;
      }
      unacked := unacked - {task.tag};
    }
  }
}
