/** The lifecycle written in sql/schema.sql ends with a final status.  A submission that is
    in the queue twice can leave it again: one worker reads the row, another one finishes
    it, and then the first writes JUDGING. */
module Overlap {
  import opened Wrappers
  import opened Verdict
  import opened Delivery
  import opened SubmissionStatus
  import opened Recovery

  lemma Extend(s: State, e: Event)
    requires Reachable(s) && Enabled(s, e)
    ensures Reachable(Apply(s, e))
  {
    hide Apply, Enabled;
    var s0, es :| Initial(s0) && IsRun(s0, es) && After(s0, es) == s;
    RunOne(s, e, []);
    RunThenRun(s0, es, [e] + []);
    assert Initial(s0) && IsRun(s0, es + ([e] + [])) && After(s0, es + ([e] + [])) == Apply(s, e);
  }

  const ASKER := Tid(0, 0)
  const FIRST := Tid(0, 1)
  const SECOND := Tid(0, 2)

  /** What `create_submission` inserts. */
  predicate IsNew(row: Row) { row.status == Pending && row.problem > 0 && row.language != "" && row.code != "" }

  function Msg(row: Row): TaskMessage { TaskMessage(1, row.problem, row.language) }

  /** The problem of the row can be judged. */
  function Judgeable(row: Row): Problems { Problems(map[row.problem := SOME_CONFIG], map[row.problem := SOME_CASES]) }

  function One(p: Proc): Mq { Mq(multiset{}, map[0 := p]) }

  function Before(row: Row, q: Mq): State { State(map[], Judgeable(row), q, map[], {}, {}) }

  /** One row, one process that queues locally. */
  function With(row: Row, queue: seq<TaskMessage>, threads: map<Tid, Pc>, accepted: set<int>): State {
    State(map[1 := row], Judgeable(row), One(Proc(Local, queue, 1, map[])), threads, accepted, {})
  }

  ghost predicate Moves(s: State, e: Event, r: State) { Enabled(s, e) && Apply(s, e) == r }

  lemma Follow(s: State, e: Event, r: State)
    requires Reachable(s) && Moves(s, e, r)
    ensures Reachable(r)
  {
    hide Reachable, Apply, Enabled;
    Extend(s, e);
  }

  lemma Starts(row: Row)
    ensures Moves(Before(row, Mq(multiset{}, map[])), Start(0), Before(row, One(Proc(Unprobed, [], 1, map[]))))
    ensures Moves(Before(row, One(Proc(Unprobed, [], 1, map[]))), Probe(0, false), Before(row, One(Proc(Local, [], 1, map[]))))
  {
    hide Judgeable;
  }

  lemma Inserts(row: Row)
    requires IsNew(row)
    ensures Moves(Before(row, One(Proc(Local, [], 1, map[]))), Insert(ASKER, 1, row, true),
                  With(row, [], map[ASKER := Creating(Msg(row))], {}))
  {
    hide Judgeable;
  }

  lemma Publishes(row: Row)
    requires IsNew(row)
    ensures Moves(With(row, [], map[ASKER := Creating(Msg(row))], {}), Publish(ASKER, InProcess), With(row, [Msg(row)], map[], {1}))
  {
    hide Judgeable;
    var s := With(row, [], map[ASKER := Creating(Msg(row))], {});
    var r := Apply(s, Publish(ASKER, InProcess));
    assert [] + [Msg(row)] == [Msg(row)];
    assert r.threads == map[] && r.mq.procs == map[0 := Proc(Local, [Msg(row)], 1, map[])];
  }

  lemma Selects(row: Row)
    requires IsNew(row)
    ensures Moves(With(row, [Msg(row)], map[], {1}), Select(ASKER, [1]),
                  With(row, [Msg(row)], map[ASKER := Sweeping([Stale(Msg(row), false)])], {1}))
  {
    hide Judgeable;
    var s := With(row, [Msg(row)], map[], {1});
    assert Selected(s.rows, [1]) == [Stale(Msg(row), false)];
  }

  lemma PublishesAgain(row: Row)
    requires IsNew(row)
    ensures Moves(With(row, [Msg(row)], map[ASKER := Sweeping([Stale(Msg(row), false)])], {1}), Publish(ASKER, InProcess),
                  With(row, [Msg(row), Msg(row)], map[], {1}))
  {
    hide Judgeable;
    var s := With(row, [Msg(row)], map[ASKER := Sweeping([Stale(Msg(row), false)])], {1});
    var r := Apply(s, Publish(ASKER, InProcess));
    assert r.threads == map[];
    assert [Msg(row)] + [Msg(row)] == [Msg(row), Msg(row)];
    assert r.mq.procs == map[0 := Proc(Local, [Msg(row), Msg(row)], 1, map[])];
  }

  lemma PopsFirst(row: Row)
    ensures Moves(With(row, [Msg(row), Msg(row)], map[], {1}), PopLocal(FIRST),
                  With(row, [Msg(row)], map[FIRST := Popped(Task(Msg(row), 0))], {1}))
  {
    hide Judgeable;
    assert [Msg(row), Msg(row)][1..] == [Msg(row)];
  }

  lemma PopsSecond(row: Row)
    ensures Moves(With(row, [Msg(row)], map[FIRST := Popped(Task(Msg(row), 0))], {1}), PopLocal(SECOND),
                  With(row, [], map[FIRST := Popped(Task(Msg(row), 0)), SECOND := Popped(Task(Msg(row), 0))], {1}))
  {
    hide Judgeable;
    assert [Msg(row)][1..] == [];
  }

  function Reading(row: Row): Pc { Running(Task(Msg(row), 0), Looked(row.problem, row.language, row.code)) }

  lemma LooksSecond(row: Row)
    requires IsNew(row)
    ensures Moves(With(row, [], map[FIRST := Popped(Task(Msg(row), 0)), SECOND := Popped(Task(Msg(row), 0))], {1}), Look(SECOND),
                  With(row, [], map[FIRST := Popped(Task(Msg(row), 0)), SECOND := Reading(row)], {1}))
  {
    hide Judgeable;
  }

  /** The submission was published, found stale and published again, both workers have
      popped it, and the second has read its row. */
  lemma BothPopped(row: Row) returns (s: State)
    requires IsNew(row)
    ensures Reachable(s) && s == With(row, [], map[FIRST := Popped(Task(Msg(row), 0)), SECOND := Reading(row)], {1})
  {
    var s0 := Before(row, Mq(multiset{}, map[]));
    assert Initial(s0) && IsRun(s0, []) && After(s0, []) == s0;
    hide Moves, Reachable, With, One;
    var m := Msg(row);
    var task := Popped(Task(m, 0));
    Starts(row);
    Follow(s0, Start(0), Before(row, One(Proc(Unprobed, [], 1, map[]))));
    Follow(Before(row, One(Proc(Unprobed, [], 1, map[]))), Probe(0, false), Before(row, One(Proc(Local, [], 1, map[]))));
    Inserts(row);
    Follow(Before(row, One(Proc(Local, [], 1, map[]))), Insert(ASKER, 1, row, true), With(row, [], map[ASKER := Creating(m)], {}));
    Publishes(row);
    Follow(With(row, [], map[ASKER := Creating(m)], {}), Publish(ASKER, InProcess), With(row, [m], map[], {1}));
    Selects(row);
    Follow(With(row, [m], map[], {1}), Select(ASKER, [1]), With(row, [m], map[ASKER := Sweeping([Stale(m, false)])], {1}));
    PublishesAgain(row);
    Follow(With(row, [m], map[ASKER := Sweeping([Stale(m, false)])], {1}), Publish(ASKER, InProcess), With(row, [m, m], map[], {1}));
    PopsFirst(row);
    Follow(With(row, [m, m], map[], {1}), PopLocal(FIRST), With(row, [m], map[FIRST := task], {1}));
    PopsSecond(row);
    Follow(With(row, [m], map[FIRST := task], {1}), PopLocal(SECOND), With(row, [], map[FIRST := task, SECOND := task], {1}));
    LooksSecond(row);
    s := With(row, [], map[FIRST := task, SECOND := Reading(row)], {1});
    Follow(With(row, [], map[FIRST := task, SECOND := task], {1}), Look(SECOND), s);
  }

  lemma ReachableRun(s: State, es: seq<Event>)
    requires Reachable(s) && IsRun(s, es)
    ensures Reachable(After(s, es))
  {
    hide Apply, Enabled;
    var s0, fs :| Initial(s0) && IsRun(s0, fs) && After(s0, fs) == s;
    RunThenRun(s0, fs, es);
    assert Initial(s0) && IsRun(s0, fs + es) && After(s0, fs + es) == After(s, es);
  }

  const AC := Write("AC", 0, 0, AllPassed(1))

  /** A reachable state in which the row is final, and a run in which it is JUDGING again. */
  lemma FinalIsLeft(row: Row) returns (s: State, es: seq<Event>)
    requires IsNew(row)
    ensures Reachable(s) && IsFinal(s.rows, 1)
    ensures IsRun(s, es) && 1 in After(s, es).rows && !IsFinal(After(s, es).rows, 1)
  {
    hide Reachable, Apply, Enabled;
    var s0 := BothPopped(row);
    assert Recognised(AC);
    var es0 := EndSomehow(s0, FIRST, req => AC);
    ReachableRun(s0, es0);
    s := After(s0, es0);
    assert IsFinal(s.rows, 1) by {
      assert RequestFor(row, s0.problems).Some?;
      assert s.rows == JudgeOne(s0.rows, s0.problems, req => AC, 1);
    }
    assert s.threads[SECOND] == Reading(row);
    es := MarkSometime(s, SECOND, 1);
    RunKeepsRows(s, es);
  }

  lemma {:induction false} RunKeepsRows(s: State, es: seq<Event>)
    requires IsRun(s, es)
    ensures s.rows.Keys <= After(s, es).rows.Keys
    decreases |es|
  {
    hide Apply, Enabled;
    if es != [] {
      RowsStay(s, es[0]);
      RunKeepsRows(Apply(s, es[0]), es[1..]);
    }
  }
}
