/** What every run without failing statements, crashes and edits does to one submission:
    once its message is on its way, or the reclaimer has selected its row, only a verdict
    ends that. */
module Settling {
  import opened Wrappers
  import opened Verdict
  import opened Delivery
  import opened DeliverySafety
  import opened SubmissionStatus

  /** No process crashes, no problem is edited, no statement fails, and the sandbox answers
      as `verdict`.  Connections to the broker may fail, tasks may be deferred and judged
      twice at a time, and new submissions may arrive. */
  ghost predicate Smooth(s: State, e: Event, verdict: Request -> Outcome)
    requires Enabled(s, e)
  {
    !e.Crash? && !e.Edit? && !e.Fail? && (e.Mark? || e.Reset? ==> e.ok) &&
    (e.Conclude? ==> e.outcome == verdict(s.threads[e.t].stage.req) && (e.outcome.Write? ==> e.ok))
  }

  ghost predicate SmoothRun(s: State, es: seq<Event>, verdict: Request -> Outcome)
    requires IsRun(s, es)
    decreases |es|
  {
    es != [] ==> Smooth(s, es[0], verdict) && SmoothRun(Apply(s, es[0]), es[1..], verdict)
  }

  lemma SmoothIsFair(s: State, e: Event, id: int, verdict: Request -> Outcome)
    requires Enabled(s, e) && Smooth(s, e, verdict)
    ensures Fair(s, e, id, verdict)
  {
  }

  // --------------------------------------------------------------- no failed attempt

  /** The sandbox will have a verdict for it. */
  ghost predicate Judgeable(s: State, id: int, verdict: Request -> Outcome) {
    RequestOf(s, id).Some? && verdict(RequestOf(s, id).value).Write?
  }

  predicate Failed(pc: Pc, id: int) { pc.Finished? && !pc.done && pc.task.msg.submission == id }

  ghost predicate NoneFailed(threads: map<Tid, Pc>, id: int) { forall t :: t in threads ==> !Failed(threads[t], id) }

  lemma NextNotFailed(s: State, e: Event, id: int, verdict: Request -> Outcome)
    requires MovesThread(e) && Enabled(s, e) && Smooth(s, e, verdict) && Judgeable(s, id, verdict)
    requires e.t in s.threads && Judges(s.threads[e.t], id) ==> Current(s, id, s.threads[e.t].stage)
    requires e.t in s.threads ==> !Failed(s.threads[e.t], id)
    ensures Next(s, e).Some? ==> !Failed(Next(s, e).value, id)
  {
    hide Recognised;
  }

  lemma CallFailed(s: State, e: Event, t: Tid, id: int)
    requires !MovesThread(e) && CanCall(s, e)
    requires t in ThreadsAfter(s, e) && Failed(ThreadsAfter(s, e)[t], id)
    ensures t in s.threads && ThreadsAfter(s, e)[t] == s.threads[t]
  {
    hide Parse;
  }

  lemma StepKeepsNoneFailed(s: State, e: Event, id: int, verdict: Request -> Outcome)
    requires Enabled(s, e) && Smooth(s, e, verdict) && Judgeable(s, id, verdict)
    requires AllCurrent(s, id) && NoneFailed(s.threads, id)
    ensures NoneFailed(Apply(s, e).threads, id)
  {
    hide Next, Written, MqAfter, ThreadsAfter, OrphanedAfter, AcceptedAfter, CanMove, CanCall, Current, Failed, Smooth, Judgeable;
    var r := Apply(s, e);
    forall t | t in r.threads ensures !Failed(r.threads[t], id) {
      if Failed(r.threads[t], id) {
        if !MovesThread(e) {
          CallFailed(s, e, t, id);
        } else if t == e.t {
          NextNotFailed(s, e, id, verdict);
        }
      }
    }
  }

  // ------------------------------------------------------------------ never let go of

  /** Entry `i` of a reclaimer's list is for the submission, and its publish is to come: a
      JUDGING entry needs the row to be JUDGING still. */
  predicate Pledged(rows: map<int, Row>, threads: map<Tid, Pc>, t: Tid, i: nat, id: int) {
    t in threads && threads[t].Sweeping? && i < |threads[t].todo| &&
    var one := threads[t].todo[i];
    one.msg.submission == id && (one.judging ==> id in rows && rows[id].status == Judging)
  }

  ghost predicate Promised(s: State, id: int) { exists t, i :: Pledged(s.rows, s.threads, t, i, id) }

  /** The row is final, or a copy is on its way, or the reclaimer is about to publish one. */
  ghost predicate Kept(s: State, id: int) {
    id in s.rows && (IsFinal(s.rows, id) || Covered(s, id) || Promised(s, id))
  }

  function Clean(s: State): State { s.(orphaned := {}) }

  lemma CleanMove(s: State, e: Event)
    requires MovesThread(e) && CanMove(s, e)
    ensures CanMove(Clean(s), e) && Next(Clean(s), e) == Next(s, e) && Written(Clean(s), e) == Written(s, e)
  {
    hide ReadRow, ReadConfig, ReadCases, SetStatus, Recognised, Hits, StaleRow, Rest;
  }

  lemma CleanCall(s: State, e: Event)
    requires !MovesThread(e) && CanCall(s, e)
    ensures CanCall(Clean(s), e) && MqAfter(Clean(s), e) == MqAfter(s, e) && ThreadsAfter(Clean(s), e) == ThreadsAfter(s, e)
  {
    hide Send, Disconnect, Deliver, Acknowledge, Parse, DropFront;
  }

  lemma CleanStep(s: State, e: Event)
    requires Enabled(s, e)
    ensures Enabled(Clean(s), e)
    ensures var (a, b) := (Apply(s, e), Apply(Clean(s), e));
            a.rows == b.rows && a.mq == b.mq && a.threads == b.threads
  {
    hide CanMove, CanCall, Next, Written, MqAfter, ThreadsAfter, OrphanedAfter, AcceptedAfter;
    if MovesThread(e) {
      CleanMove(s, e);
    } else {
      CleanCall(s, e);
    }
  }

  /** Without a crash and a failed attempt no copy is dropped. */
  lemma CopyKept(s: State, e: Event, id: int)
    requires WellFormed(s) && Enabled(s, e) && !e.Crash? && NoneFailed(s.threads, id)
    requires id in s.rows && (IsFinal(s.rows, id) || Covered(s, id))
    ensures var r := Apply(s, e); id in r.rows && (IsFinal(r.rows, id) || Covered(r, id))
  {
    assert e.Ack? ==> e.t in s.threads && !Failed(s.threads[e.t], id);
    hide Apply, Enabled;
    var c := Clean(s);
    assert WellFormed(c);
    CleanStep(s, e);
    SafeOn(c, e, id);
    if id in Apply(c, e).orphaned {
      DroppedOnlyBy(c, e, id);
    }
  }

  /** A step of the reclaimer itself. */
  lemma OwnPledge(s: State, e: Event, i: nat, id: int, verdict: Request -> Outcome)
    requires WellFormed(s) && MovesThread(e) && Enabled(s, e) && Smooth(s, e, verdict)
    requires Pledged(s.rows, s.threads, e.t, i, id)
    ensures exists j: nat :: Pledged(Written(s, e), Put(s.threads, e.t, Next(s, e)), e.t, j, id)
  {
    hide TagsDistinct, ThreadsOk, RowsOk, ReadyOk, ProcsOk, Valid;
    NoPoison(s, e);
    assert e.Reset?;
    var todo := s.threads[e.t].todo;
    var hit := Hits(s.rows, todo[0]);
    if i == 0 || (hit && todo[0].msg.submission == id) {
      assert hit;
      assert Pledged(Written(s, e), Put(s.threads, e.t, Next(s, e)), e.t, 0, id);
    } else {
      assert |todo| > 1 && todo[1..][i - 1] == todo[i];
      assert Pledged(Written(s, e), Put(s.threads, e.t, Next(s, e)), e.t, if hit then i else i - 1, id);
    }
  }

  /** Somebody else's reset turns the promise over to them. */
  lemma OtherPledge(s: State, e: Event, t: Tid, i: nat, id: int, verdict: Request -> Outcome)
    requires MovesThread(e) && Enabled(s, e) && Smooth(s, e, verdict) && t != e.t
    requires Pledged(s.rows, s.threads, t, i, id) && !IsFinal(Written(s, e), id) && id in s.rows
    ensures var threads := Put(s.threads, e.t, Next(s, e));
            Pledged(Written(s, e), threads, t, i, id) || Pledged(Written(s, e), threads, e.t, 0, id)
  {
    hide Recognised;
  }

  lemma PledgeAfterPublish(s: State, t: Tid, i: nat, id: int, e: Event)
    requires WellFormed(s) && e.Publish? && e.t == t && Enabled(s, e) && Pledged(s.rows, s.threads, t, i, id)
    ensures var r := Apply(s, e); Covered(r, id) || (i > 0 && Pledged(r.rows, r.threads, t, i - 1, id))
  {
    hide WellFormed, MqAfter, Covered;
    if i == 0 {
      PublishCovers(s, t, e.how);
    } else {
      var todo := s.threads[t].todo;
      assert todo[1..][i - 1] == todo[i];
    }
  }

  lemma PledgeAfterCall(s: State, e: Event, t: Tid, i: nat, id: int)
    requires !MovesThread(e) && CanCall(s, e) && !e.Crash? && Pledged(s.rows, s.threads, t, i, id)
    requires e.Publish? ==> e.t != t
    ensures Pledged(s.rows, ThreadsAfter(s, e), t, i, id)
  {
    hide Parse;
  }

  lemma PromiseKept(s: State, e: Event, id: int, verdict: Request -> Outcome)
    requires WellFormed(s) && Enabled(s, e) && Smooth(s, e, verdict) && id in s.rows && Promised(s, id)
    ensures Kept(Apply(s, e), id)
  {
    hide WellFormed, Next, Written, MqAfter, ThreadsAfter, OrphanedAfter, AcceptedAfter, CanMove, CanCall, Pledged, Covered, Smooth, IsFinal;
    Transitions(s, e, id);
    var t, i: nat :| Pledged(s.rows, s.threads, t, i, id);
    if MovesThread(e) {
      if t == e.t {
        OwnPledge(s, e, i, id, verdict);
      } else if !IsFinal(Written(s, e), id) {
        OtherPledge(s, e, t, i, id, verdict);
      }
    } else if e.Publish? && e.t == t {
      PledgeAfterPublish(s, t, i, id, e);
    } else {
      SmoothNoCrash(s, e, verdict);
      PledgeAfterCall(s, e, t, i, id);
    }
  }

  lemma SmoothNoCrash(s: State, e: Event, verdict: Request -> Outcome)
    requires Enabled(s, e) && Smooth(s, e, verdict)
    ensures !e.Crash? && !e.Edit?
  {
  }

  /** Nothing in a smooth run lets go of a judgeable submission. */
  lemma StepKeeps(s: State, e: Event, id: int, verdict: Request -> Outcome)
    requires WellFormed(s) && Enabled(s, e) && Smooth(s, e, verdict) && NoneFailed(s.threads, id)
    requires Kept(s, id)
    ensures Kept(Apply(s, e), id)
  {
    hide WellFormed, Apply, Enabled, Promised, Covered, IsFinal, NoneFailed, Smooth;
    if IsFinal(s.rows, id) || Covered(s, id) {
      SmoothNoCrash(s, e, verdict);
      CopyKept(s, e, id);
    } else {
      PromiseKept(s, e, id, verdict);
    }
  }

  /** The reclaimer's SELECT promises every row it returns. */
  lemma SelectPromises(s: State, e: Event, id: int)
    requires Enabled(s, e) && e.Select? && id in e.ids
    ensures Kept(Apply(s, e), id)
  {
    var i :| 0 <= i < |e.ids| && e.ids[i] == id;
    var r := Apply(s, e);
    assert Pledged(r.rows, r.threads, e.t, i, id);
  }

  // --------------------------------------------------------------------- along a run

  predicate Mentioned(es: seq<Event>, id: int) { exists k :: 0 <= k < |es| && es[k].Select? && id in es[k].ids }

  lemma MentionedLater(es: seq<Event>, id: int)
    requires es != [] && Mentioned(es, id)
    ensures (es[0].Select? && id in es[0].ids) || Mentioned(es[1..], id)
  {
    var k :| 0 <= k < |es| && es[k].Select? && id in es[k].ids;
    assert k > 0 ==> es[1..][k - 1] == es[k];
  }

  lemma StepStaysJudgeable(s: State, e: Event, id: int, verdict: Request -> Outcome)
    requires Enabled(s, e) && Smooth(s, e, verdict) && AllCurrent(s, id) && Judgeable(s, id, verdict)
    ensures Judgeable(Apply(s, e), id, verdict) && AllCurrent(Apply(s, e), id)
  {
    hide Apply, Enabled, Smooth, Fair, AllCurrent, RequestFor;
    SmoothIsFair(s, e, id, verdict);
    RequestStays(s, e, id, verdict);
    StepKeepsCurrent(s, e, id, verdict);
  }

  /** From its copy or its selection on, a judgeable submission is kept to the end. */
  lemma {:induction false} RunKeeps(s: State, es: seq<Event>, id: int, verdict: Request -> Outcome)
    requires WellFormed(s) && IsRun(s, es) && SmoothRun(s, es, verdict)
    requires AllCurrent(s, id) && Judgeable(s, id, verdict) && NoneFailed(s.threads, id)
    requires Kept(s, id) || Mentioned(es, id)
    ensures Kept(After(s, es), id)
    decreases |es|
  {
    hide Apply, Enabled, Smooth, WellFormed, AllCurrent, NoneFailed, Judgeable, Kept, Mentioned;
    if es == [] {
      assert !Mentioned(es, id) by { NothingMentioned(id); }
    } else {
      var e := es[0];
      StepKeepsWellFormed(s, e);
      StepStaysJudgeable(s, e, id, verdict);
      StepKeepsNoneFailed(s, e, id, verdict);
      if Kept(s, id) {
        StepKeeps(s, e, id, verdict);
      } else {
        MentionedLater(es, id);
        if e.Select? && id in e.ids {
          SelectPromises(s, e, id);
        }
      }
      RunKeeps(Apply(s, e), es[1..], id, verdict);
    }
  }

  lemma NothingMentioned(id: int)
    ensures !Mentioned([], id)
  {
  }

  // ------------------------------------------------------------------ what a row gets

  /** What a recovery owes to a row. */
  predicate Settled(before: Row, after: Row, ps: Problems, verdict: Request -> Outcome) {
    if before.status.Final? then after == before
    else
      var req := RequestFor(before, ps);
      if req.Some? && verdict(req.value).Write? then after == before.(status := Final(verdict(req.value)))
      else !after.status.Final? && after.(status := Pending) == before.(status := Pending)
  }

  /** A row is final only with the sandbox's verdict on it. */
  ghost predicate Earned(s: State, id: int, verdict: Request -> Outcome) {
    IsFinal(s.rows, id) ==>
      Judgeable(s, id, verdict) && s.rows[id].status.outcome == verdict(RequestOf(s, id).value)
  }

  lemma StepKeepsEarned(s: State, e: Event, id: int, verdict: Request -> Outcome)
    requires Enabled(s, e) && Fair(s, e, id, verdict) && AllCurrent(s, id) && Earned(s, id, verdict) && id in s.rows
    ensures Earned(Apply(s, e), id, verdict)
  {
    assert e.Conclude? ==> e.t in s.threads && s.threads[e.t].Running?;
    hide Apply, Enabled, RequestFor, RequestOf, AllCurrent;
    Transitions(s, e, id);
    RequestStays(s, e, id, verdict);
    if !IsFinal(s.rows, id) && IsFinal(Apply(s, e).rows, id) {
      FinalByConclude(s, e, id);
      ConcludeEarns(s, e, id, verdict);
    } else if e.Conclude? && e.applied && Judges(s.threads[e.t], id) {
      ConcludeEarns(s, e, id, verdict);
    }
  }

  lemma ConcludeEarns(s: State, e: Event, id: int, verdict: Request -> Outcome)
    requires Enabled(s, e) && Fair(s, e, id, verdict) && AllCurrent(s, id)
    requires e.Conclude? && e.applied && Judges(s.threads[e.t], id)
    ensures Judgeable(s, id, verdict) && e.outcome == verdict(RequestOf(s, id).value)
  {
    hide RequestFor;
    assert Current(s, id, s.threads[e.t].stage);
  }

  /** The other columns never change. */
  predicate SameColumns(before: Row, after: Row) { after.(status := Pending) == before.(status := Pending) }

  lemma {:induction false} RunEarns(s: State, es: seq<Event>, id: int, verdict: Request -> Outcome)
    requires IsRun(s, es) && SmoothRun(s, es, verdict) && AllCurrent(s, id) && Earned(s, id, verdict) && id in s.rows
    ensures var r := After(s, es);
            id in r.rows && SameColumns(s.rows[id], r.rows[id]) && Earned(r, id, verdict) && RequestOf(r, id) == RequestOf(s, id)
    decreases |es|
  {
    hide Apply, Enabled, Smooth, Fair, AllCurrent, Earned, RequestOf;
    if es != [] {
      var e := es[0];
      SmoothIsFair(s, e, id, verdict);
      Transitions(s, e, id);
      RequestStays(s, e, id, verdict);
      StepKeepsCurrent(s, e, id, verdict);
      StepKeepsEarned(s, e, id, verdict);
      RunEarns(Apply(s, e), es[1..], id, verdict);
    }
  }

  ghost predicate NoneJudges(threads: map<Tid, Pc>, id: int) { forall t :: t in threads ==> !Judges(threads[t], id) }

  lemma NextJudges(s: State, e: Event, id: int)
    requires MovesThread(e) && CanMove(s, e) && Next(s, e).Some? && Judges(Next(s, e).value, id) && IsFinal(s.rows, id)
    ensures e.t in s.threads && Judges(s.threads[e.t], id)
  {
  }

  /** A final row nobody is judging is not touched. */
  lemma StepUntouched(s: State, e: Event, id: int)
    requires Enabled(s, e) && IsFinal(s.rows, id) && NoneJudges(s.threads, id)
    ensures var r := Apply(s, e); id in r.rows && r.rows[id] == s.rows[id] && NoneJudges(r.threads, id)
  {
    hide Next, Written, MqAfter, ThreadsAfter, OrphanedAfter, AcceptedAfter, CanCall;
    Transitions(s, e, id);
    var r := Apply(s, e);
    forall t | t in r.threads ensures !Judges(r.threads[t], id) {
      if Judges(r.threads[t], id) {
        if !MovesThread(e) {
          CallJudges(s, e, t, id);
        } else if t == e.t {
          NextJudges(s, e, id);
        }
      }
    }
  }

  lemma {:induction false} RunUntouched(s: State, es: seq<Event>, id: int)
    requires IsRun(s, es) && IsFinal(s.rows, id) && NoneJudges(s.threads, id)
    ensures id in After(s, es).rows && After(s, es).rows[id] == s.rows[id]
    decreases |es|
  {
    hide Apply, Enabled, NoneJudges;
    if es != [] {
      StepUntouched(s, es[0], id);
      RunUntouched(Apply(s, es[0]), es[1..], id);
    }
  }

  // ---------------------------------------------------------------------- the theorem

  /** No thread is at work and no message is waiting. */
  ghost predicate Quiet(s: State) {
    s.threads == map[] && s.mq.ready == multiset{} && forall p :: p in s.mq.procs ==> s.mq.procs[p].queue == []
  }

  lemma QuietKeepsNothing(s: State, id: int)
    requires Quiet(s) && Kept(s, id)
    ensures IsFinal(s.rows, id)
  {
  }

  lemma RowSettles(s: State, es: seq<Event>, id: int, verdict: Request -> Outcome)
    requires WellFormed(s) && s.threads == map[] && IsRun(s, es) && SmoothRun(s, es, verdict) && Quiet(After(s, es))
    requires id in s.rows && (IsOpen(s.rows, id) ==> Covered(s, id) || Mentioned(es, id))
    ensures id in After(s, es).rows && Settled(s.rows[id], After(s, es).rows[id], s.problems, verdict)
  {
    hide WellFormed, IsRun, After, SmoothRun, RequestFor, Covered, Mentioned, Quiet;
    if IsFinal(s.rows, id) {
      RunUntouched(s, es, id);
    } else {
      RunEarns(s, es, id, verdict);
      if Judgeable(s, id, verdict) {
        RunKeeps(s, es, id, verdict);
        QuietKeepsNothing(After(s, es), id);
      }
    }
  }
}
