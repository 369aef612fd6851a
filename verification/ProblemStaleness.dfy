/** The problem cache of nl-problem/src/module.cpp under any interleaving: how old an answer
    of `get_problem` can be.

    Any number of processes, each with its own L1 table, share one Redis and one MySQL.
    Every access to a table is one event.  Redis may be unreachable at any call, a write or
    a DEL may be lost, and rows, entries of L1 and keys of Redis may change or vanish at any
    time, so whatever `update_problem` and `create_problem` do is among the runs. */
module ProblemStaleness {
  import opened Wrappers
  import opened ProblemDetail

  // ---------------------------------------------------------------------------- state

  /** What `get_problem` returns; `None` is the empty detail. */
  type Answer = Option<Detail>

  /** The visible row of a problem from `since` on. */
  datatype Version = Version(since: int, row: Answer)

  /** The read of MySQL an answer goes back to: when it was, and the row it found unless
      the read failed. */
  datatype Origin = Origin(asOf: int, row: Answer, failed: bool)

  datatype L1Entry = L1Entry(value: Answer, expire: int, origin: Origin)

  datatype RedisEntry = RedisEntry(value: Answer, expire: int, origin: Origin)

  datatype Stage
    = Began
    | L1Missed
    | RedisMissed
    | Unlocked                                   // another thread holds the rebuild lock
    | Loading
    | Loaded(value: Answer, origin: Origin)
    | Fetched(value: Answer, origin: Origin)     // from Redis, or written there: L1 is next
    | Answering(value: Answer, origin: Origin)

  /** One call of `get_problem`. */
  datatype Call = Call(proc: nat, id: int, begin: int, bypass: bool, stage: Stage)

  datatype Slot = Slot(proc: nat, id: int)

  datatype State = State(
    now: int,
    history: map<int, seq<Version>>,
    l1: map<Slot, L1Entry>,
    redis: map<int, RedisEntry>,
    calls: map<nat, Call>)

  const DAWN := Version(0, None)

  /** Rows that were never written are invisible. */
  function Versions(history: map<int, seq<Version>>, id: int): (vs: seq<Version>) {
    if id in history && history[id] != [] then history[id] else [DAWN]
  }

  function Visible(history: map<int, seq<Version>>, id: int): Answer {
    var vs := Versions(history, id);
    vs[|vs| - 1].row
  }

  /** `row` was the visible row at some time not before `from`. */
  ghost predicate WasVisible(vs: seq<Version>, row: Answer, from: int) {
    exists k :: 0 <= k < |vs| && vs[k].row == row && (k + 1 < |vs| ==> vs[k + 1].since >= from)
  }

  // --------------------------------------------------------------------------- events

  datatype Event
    = Tick(d: nat)
    | Begin(c: nat, proc: nat, id: int, bypass: bool)
    | LookL1(c: nat)
    | LookRedis(c: nat, up: bool)
    | Lock(c: nat, got: bool)
    | LookAgain(c: nat, up: bool)
    | Load(c: nat, ok: bool)
    | Save(c: nat, applied: bool)
    | PutL1(c: nat)
    | Return(c: nat)
    | WriteRow(id: int, row: Answer)
    | Erase(slot: Slot)
    | Del(id: int)

  predicate In(s: State, c: nat, st: Stage) { c in s.calls && s.calls[c].stage == st }

  /** A call lasts at most `d`. */
  predicate Enabled(s: State, e: Event, d: nat) {
    match e
    case Tick(dt) => forall c :: c in s.calls ==> s.now + dt <= s.calls[c].begin + d
    case Begin(c, proc, id, bypass) => c !in s.calls && id > 0
    case LookL1(c) => In(s, c, Began) && !s.calls[c].bypass
    case LookRedis(c, up) => In(s, c, L1Missed)
    case Lock(c, got) => In(s, c, RedisMissed)
    case LookAgain(c, up) => In(s, c, Unlocked)
    case Load(c, ok) => In(s, c, Loading) || (In(s, c, Began) && s.calls[c].bypass)
    case Save(c, applied) => c in s.calls && s.calls[c].stage.Loaded?
    case PutL1(c) => c in s.calls && s.calls[c].stage.Fetched?
    case Return(c) => c in s.calls && s.calls[c].stage.Answering?
    case WriteRow(id, row) => true
    case Erase(slot) => true
    case Del(id) => true
  }

  function Goto(s: State, c: nat, st: Stage): map<nat, Call>
    requires c in s.calls
  {
    s.calls[c := s.calls[c].(stage := st)]
  }

  function L1Hit(s: State, c: nat): bool
    requires c in s.calls
  {
    var slot := Slot(s.calls[c].proc, s.calls[c].id);
    slot in s.l1 && s.now < s.l1[slot].expire
  }

  function RedisHit(s: State, c: nat, up: bool): bool
    requires c in s.calls
  {
    up && s.calls[c].id in s.redis && s.now < s.redis[s.calls[c].id].expire
  }

  /** The load: the visible row, or nothing when a query fails. */
  function LoadNow(s: State, id: int, ok: bool): Origin {
    Origin(s.now, if ok then Visible(s.history, id) else None, !ok)
  }

  /** Where the call goes. */
  function NextStage(s: State, e: Event, d: nat): Stage
    requires Enabled(s, e, d)
    requires e.LookL1? || e.LookRedis? || e.Lock? || e.LookAgain? || e.Load? || e.Save? || e.PutL1?
  {
    var call := s.calls[e.c];
    match e
    case LookL1(c) =>
      if L1Hit(s, c) then
        var entry := s.l1[Slot(call.proc, call.id)];
        Answering(entry.value, entry.origin)
      else L1Missed
    case LookRedis(c, up) =>
      if RedisHit(s, c, up) then Fetched(s.redis[call.id].value, s.redis[call.id].origin) else RedisMissed
    case Lock(c, got) => if got then Loading else Unlocked
    case LookAgain(c, up) =>
      if !RedisHit(s, c, up) then Loading
      else if s.redis[call.id].value.None? then Answering(None, s.redis[call.id].origin)
      else Fetched(s.redis[call.id].value, s.redis[call.id].origin)
    case Load(c, ok) =>
      var origin := LoadNow(s, call.id, ok);
      if call.bypass then Answering(origin.row, origin) else Loaded(origin.row, origin)
    case Save(c, applied) => Fetched(call.stage.value, call.stage.origin)
    case PutL1(c) => Answering(call.stage.value, call.stage.origin)
  }

  /** `write_problem_cache`. */
  function Saved(call: Call, now: int): RedisEntry
    requires call.id > 0 && call.stage.Loaded?
  {
    RedisEntry(NormalView(call.stage.value), now + Ttl(call.id, call.stage.value), call.stage.origin)
  }

  /** `l1_put`. */
  function Kept(call: Call, now: int): L1Entry
    requires call.stage.Fetched?
  {
    L1Entry(call.stage.value, now + L1_TTL, call.stage.origin)
  }

  predicate Positive(s: State) { forall c :: c in s.calls ==> s.calls[c].id > 0 }

  function Apply(s: State, e: Event, d: nat): State
    requires Enabled(s, e, d) && Positive(s)
  {
    match e
    case Tick(dt) => s.(now := s.now + dt)
    case Begin(c, proc, id, bypass) => s.(calls := s.calls[c := Call(proc, id, s.now, bypass, Began)])
    case Save(c, applied) =>
      s.(calls := Goto(s, c, NextStage(s, e, d)),
         redis := if applied then s.redis[s.calls[c].id := Saved(s.calls[c], s.now)] else s.redis)
    case PutL1(c) =>
      s.(calls := Goto(s, c, NextStage(s, e, d)),
         l1 := s.l1[Slot(s.calls[c].proc, s.calls[c].id) := Kept(s.calls[c], s.now)])
    case Return(c) => s.(calls := s.calls - {c})
    case WriteRow(id, row) => s.(history := s.history[id := Versions(s.history, id) + [Version(s.now, row)]])
    case Erase(slot) => s.(l1 := s.l1 - {slot})
    case Del(id) => s.(redis := s.redis - {id})
    case _ => s.(calls := Goto(s, e.c, NextStage(s, e, d)))
  }

  // ------------------------------------------------------------------------ invariants

  /** The answer is what a read of MySQL not after now found, up to the filled-in defaults. */
  ghost predicate Genuine(vs: seq<Version>, now: int, value: Answer, o: Origin) {
    && o.asOf <= now
    && (value == o.row || value == NormalView(o.row))
    && (o.failed ==> o.row.None?)
    && (!o.failed ==> WasVisible(vs, o.row, o.asOf))
  }

  /** An entry of Redis is at most one call older than its write. */
  ghost predicate RedisOk(s: State, id: int, d: nat)
    requires id in s.redis
  {
    var r := s.redis[id];
    id > 0 && Genuine(Versions(s.history, id), s.now, r.value, r.origin) && r.origin.asOf >= r.expire - Ttl(id, r.value) - d
  }

  ghost predicate L1Ok(s: State, slot: Slot, d: nat)
    requires slot in s.l1
  {
    var r := s.l1[slot];
    slot.id > 0 && Genuine(Versions(s.history, slot.id), s.now, r.value, r.origin) &&
    r.origin.asOf >= r.expire - L1_TTL - Ttl(slot.id, r.value) - 2 * d
  }

  /** How far the origin of a call's value may lie before its beginning. */
  function Slack(call: Call, value: Answer, d: nat): int
    requires call.id > 0
  {
    if call.stage.Loaded? then 0
    else if call.stage.Fetched? then Ttl(call.id, value) + d
    else L1_TTL + Ttl(call.id, value) + 2 * d
  }

  ghost predicate CallOk(s: State, call: Call, d: nat) {
    call.id > 0 && call.begin <= s.now <= call.begin + d &&
    (call.stage.Loaded? || call.stage.Fetched? || call.stage.Answering? ==>
       Genuine(Versions(s.history, call.id), s.now, call.stage.value, call.stage.origin) &&
       call.stage.origin.asOf >= call.begin - Slack(call, call.stage.value, d)) &&
    (call.stage.Loaded? ==> call.stage.value == call.stage.origin.row)
  }

  ghost predicate Inv(s: State, d: nat) {
    && (forall id :: id in s.redis ==> RedisOk(s, id, d))
    && (forall slot :: slot in s.l1 ==> L1Ok(s, slot, d))
    && (forall c :: c in s.calls ==> CallOk(s, s.calls[c], d))
  }

  // ------------------------------------------------------------------------- the steps

  /** Time passing and rows being written keep every genuine answer genuine. */
  lemma StaysGenuine(vs: seq<Version>, now: int, later: int, row: Answer, value: Answer, o: Origin)
    requires Genuine(vs, now, value, o) && now <= later
    ensures Genuine(vs, later, value, o) && Genuine(vs + [Version(now, row)], later, value, o)
  {
    var ws := vs + [Version(now, row)];
    if !o.failed {
      var k :| 0 <= k < |vs| && vs[k].row == o.row && (k + 1 < |vs| ==> vs[k + 1].since >= o.asOf);
      assert ws[k].row == o.row && (k + 1 < |ws| ==> ws[k + 1].since >= o.asOf);
    }
  }

  lemma LoadIsGenuine(s: State, id: int, ok: bool)
    ensures var o := LoadNow(s, id, ok); Genuine(Versions(s.history, id), s.now, o.row, o)
  {
    var vs := Versions(s.history, id);
    assert vs[|vs| - 1].row == Visible(s.history, id);
  }

  lemma SavedIsGenuine(vs: seq<Version>, now: int, value: Answer, o: Origin)
    requires Genuine(vs, now, value, o) && value == o.row
    ensures Genuine(vs, now, NormalView(value), o)
  {
  }

  lemma TickKeepsInv(s: State, e: Event, d: nat)
    requires Inv(s, d) && Enabled(s, e, d) && e.Tick?
    ensures Inv(Apply(s, e, d), d)
  {
    hide Genuine, Ttl, Versions;
    var r := Apply(s, e, d);
    forall id | id in s.redis ensures RedisOk(r, id, d) {
      assert RedisOk(s, id, d);
      StaysGenuine(Versions(s.history, id), s.now, r.now, None, s.redis[id].value, s.redis[id].origin);
    }
    forall slot | slot in s.l1 ensures L1Ok(r, slot, d) {
      assert L1Ok(s, slot, d);
      StaysGenuine(Versions(s.history, slot.id), s.now, r.now, None, s.l1[slot].value, s.l1[slot].origin);
    }
    forall c | c in s.calls ensures CallOk(r, s.calls[c], d) {
      CallTicks(s, e, d, s.calls[c]);
      assert CallOk(s, s.calls[c], d);
    }
  }

  lemma CallTicks(s: State, e: Event, d: nat, call: Call)
    requires Enabled(s, e, d) && e.Tick? && Positive(s) && CallOk(s, call, d) && s.now + e.d <= call.begin + d
    ensures CallOk(Apply(s, e, d), call, d)
  {
    hide Genuine, Ttl, Versions;
    var r := Apply(s, e, d);
    if call.stage.Loaded? || call.stage.Fetched? || call.stage.Answering? {
      StaysGenuine(Versions(s.history, call.id), s.now, r.now, None, call.stage.value, call.stage.origin);
    }
  }

  lemma WriteKeepsInv(s: State, e: Event, d: nat)
    requires Inv(s, d) && Enabled(s, e, d) && e.WriteRow?
    ensures Inv(Apply(s, e, d), d)
  {
    hide Genuine, Ttl;
    var r := Apply(s, e, d);
    forall id | id in s.redis ensures RedisOk(r, id, d) {
      assert RedisOk(s, id, d);
      StaysGenuine(Versions(s.history, id), s.now, s.now, e.row, s.redis[id].value, s.redis[id].origin);
    }
    forall slot | slot in s.l1 ensures L1Ok(r, slot, d) {
      assert L1Ok(s, slot, d);
      StaysGenuine(Versions(s.history, slot.id), s.now, s.now, e.row, s.l1[slot].value, s.l1[slot].origin);
    }
    forall c | c in s.calls ensures CallOk(r, s.calls[c], d) {
      var call := s.calls[c];
      assert CallOk(s, call, d);
      if call.stage.Loaded? || call.stage.Fetched? || call.stage.Answering? {
        StaysGenuine(Versions(s.history, call.id), s.now, s.now, e.row, call.stage.value, call.stage.origin);
      }
    }
  }

  /** A call that goes on keeps to its bounds: what L1 hands out is at most an L1 lifetime
      older than what Redis may hand out, and what Redis holds was loaded by the call that
      wrote it, since a value read from Redis is never written back there. */
  lemma NextCallOk(s: State, e: Event, d: nat)
    requires Inv(s, d) && Enabled(s, e, d)
    requires e.LookL1? || e.LookRedis? || e.Lock? || e.LookAgain? || e.Load? || e.Save? || e.PutL1?
    ensures CallOk(s, s.calls[e.c].(stage := NextStage(s, e, d)), d)
  {
    hide Genuine, Versions;
    var call := s.calls[e.c];
    assert CallOk(s, call, d);
    if e.LookL1? && L1Hit(s, e.c) {
      assert L1Ok(s, Slot(call.proc, call.id), d);
    } else if (e.LookRedis? || e.LookAgain?) && RedisHit(s, e.c, e.up) {
      assert RedisOk(s, call.id, d);
    } else if e.Load? {
      LoadIsGenuine(s, call.id, e.ok);
    }
  }

  lemma SaveKeepsRedis(s: State, e: Event, d: nat)
    requires Inv(s, d) && Enabled(s, e, d) && e.Save?
    ensures forall id :: id in Apply(s, e, d).redis ==> RedisOk(Apply(s, e, d), id, d)
  {
    hide Genuine, Versions, NextStage;
    var call := s.calls[e.c];
    assert CallOk(s, call, d);
    SavedIsGenuine(Versions(s.history, call.id), s.now, call.stage.value, call.stage.origin);
    var r := Apply(s, e, d);
    forall id | id in r.redis ensures RedisOk(r, id, d) {
      if id in s.redis {
        assert RedisOk(s, id, d);
      }
    }
  }

  lemma PutKeepsL1(s: State, e: Event, d: nat)
    requires Inv(s, d) && Enabled(s, e, d) && e.PutL1?
    ensures forall slot :: slot in Apply(s, e, d).l1 ==> L1Ok(Apply(s, e, d), slot, d)
  {
    hide Genuine, Versions, NextStage;
    var call := s.calls[e.c];
    assert CallOk(s, call, d);
    var r := Apply(s, e, d);
    forall slot | slot in r.l1 ensures L1Ok(r, slot, d) {
      if slot in s.l1 {
        assert L1Ok(s, slot, d);
      }
    }
  }

  /** Neither the clock nor the rows change: what holds of an entry goes on holding. */
  lemma SameTables(s: State, r: State, d: nat)
    requires r.now == s.now && r.history == s.history
    ensures forall id :: id in s.redis && id in r.redis && r.redis[id] == s.redis[id] && RedisOk(s, id, d) ==> RedisOk(r, id, d)
    ensures forall slot :: slot in s.l1 && slot in r.l1 && r.l1[slot] == s.l1[slot] && L1Ok(s, slot, d) ==> L1Ok(r, slot, d)
    ensures forall call :: CallOk(s, call, d) ==> CallOk(r, call, d)
  {
    hide Genuine, Versions, Ttl;
  }

  lemma CallsKept(s: State, e: Event, d: nat)
    requires Inv(s, d) && Enabled(s, e, d) && !e.Tick? && !e.WriteRow?
    ensures var r := Apply(s, e, d); forall c :: c in r.calls ==> CallOk(r, r.calls[c], d)
  {
    hide RedisOk, L1Ok, Genuine, NextStage, Saved, Kept;
    var r := Apply(s, e, d);
    SameTables(s, r, d);
    forall c | c in r.calls ensures CallOk(s, r.calls[c], d) {
      if c in s.calls && s.calls[c] == r.calls[c] {
      } else if !e.Begin? {
        NextCallOk(s, e, d);
      }
    }
  }

  lemma StepKeepsInv(s: State, e: Event, d: nat)
    requires Inv(s, d) && Enabled(s, e, d)
    ensures Positive(s) && Inv(Apply(s, e, d), d)
  {
    hide RedisOk, L1Ok, NextStage, Saved, Kept;
    assert Positive(s);
    if e.Tick? {
      TickKeepsInv(s, e, d);
    } else if e.WriteRow? {
      WriteKeepsInv(s, e, d);
    } else {
      var r := Apply(s, e, d);
      SameTables(s, r, d);
      CallsKept(s, e, d);
      hide CallOk;
      if e.Save? {
        SaveKeepsRedis(s, e, d);
      } else if e.PutL1? {
        PutKeepsL1(s, e, d);
      }
    }
  }

  // ----------------------------------------------------------------------------- runs

  ghost predicate IsRun(s: State, es: seq<Event>, d: nat)
    decreases |es|
  {
    es == [] || (Enabled(s, es[0], d) && Positive(s) && IsRun(Apply(s, es[0], d), es[1..], d))
  }

  ghost function After(s: State, es: seq<Event>, d: nat): State
    requires IsRun(s, es, d)
    decreases |es|
  {
    if es == [] then s else After(Apply(s, es[0], d), es[1..], d)
  }

  /** Nothing is cached and no call is running; the rows are whatever they are. */
  predicate Initial(s: State) { s.l1 == map[] && s.redis == map[] && s.calls == map[] }

  lemma {:induction false} RunKeepsInv(s: State, es: seq<Event>, d: nat)
    requires Inv(s, d) && IsRun(s, es, d)
    ensures Inv(After(s, es, d), d)
    decreases |es|
  {
    hide Apply, Enabled, Inv;
    if es != [] {
      StepKeepsInv(s, es[0], d);
      RunKeepsInv(Apply(s, es[0], d), es[1..], d);
    }
  }

  lemma VisibleEarlier(vs: seq<Version>, row: Answer, asOf: int, from: int)
    requires WasVisible(vs, row, asOf) && from <= asOf
    ensures WasVisible(vs, row, from)
  {
  }

  // -------------------------------------------------------------------- failing loads

  /** The loads that failed along a run: of which problem and when. */
  function FailedLoads(s: State, es: seq<Event>, d: nat): set<(int, int)>
    requires IsRun(s, es, d)
    decreases |es|
  {
    if es == [] then {} else Failing(s, es[0], d) + FailedLoads(Apply(s, es[0], d), es[1..], d)
  }

  function Failing(s: State, e: Event, d: nat): set<(int, int)>
    requires Enabled(s, e, d)
  {
    if e.Load? && !e.ok then {(s.calls[e.c].id, s.now)} else {}
  }

  lemma {:induction false} NoneFailed(s: State, es: seq<Event>, d: nat)
    requires IsRun(s, es, d) && forall i :: 0 <= i < |es| && es[i].Load? ==> es[i].ok
    ensures FailedLoads(s, es, d) == {}
    decreases |es|
  {
    hide Apply, Enabled;
    if es != [] {
      NoneFailed(Apply(s, es[0], d), es[1..], d);
      assert !(es[0].Load? && !es[0].ok);
    }
  }

  /** What is marked as failed goes back to one of `fails`. */
  predicate Traced(o: Origin, id: int, fails: set<(int, int)>) { o.failed ==> (id, o.asOf) in fails }

  predicate HasOrigin(st: Stage) { st.Loaded? || st.Fetched? || st.Answering? }

  predicate AllTraced(s: State, fails: set<(int, int)>) {
    && (forall id :: id in s.redis ==> Traced(s.redis[id].origin, id, fails))
    && (forall slot :: slot in s.l1 ==> Traced(s.l1[slot].origin, slot.id, fails))
    && (forall c :: c in s.calls && HasOrigin(s.calls[c].stage) ==> Traced(s.calls[c].stage.origin, s.calls[c].id, fails))
  }

  lemma StepTraces(s: State, e: Event, d: nat, fails: set<(int, int)>)
    requires Enabled(s, e, d) && Positive(s) && AllTraced(s, fails)
    ensures AllTraced(Apply(s, e, d), fails + Failing(s, e, d))
  {
    hide Ttl, NormalView, Visible, Versions;
  }

  lemma {:induction false} RunTraces(s: State, es: seq<Event>, d: nat, fails: set<(int, int)>)
    requires IsRun(s, es, d) && AllTraced(s, fails)
    ensures AllTraced(After(s, es, d), fails + FailedLoads(s, es, d))
    decreases |es|
  {
    hide Apply, Enabled, AllTraced, Failing;
    if es == [] {
      assert fails + {} == fails;
    } else {
      var more := Failing(s, es[0], d);
      StepTraces(s, es[0], d, fails);
      RunTraces(Apply(s, es[0], d), es[1..], d, fails + more);
      assert fails + more + FailedLoads(Apply(s, es[0], d), es[1..], d) == fails + FailedLoads(s, es, d);
    }
  }

  /** Bounded staleness.  However gets, writes, lost invalidations and outages interleave,
      an answer that is not empty was, up to the two filled-in defaults, the visible row of
      MySQL within the last 1800 + id % 601 + 60 seconds; an empty one goes back to a load
      within the last 360 seconds that found no row, or one of the run's that failed.  Calls
      that take up to `d` add three times that. */
  lemma BoundedStaleness(s0: State, es: seq<Event>, d: nat, c: nat)
    requires Initial(s0) && IsRun(s0, es, d)
    requires c in After(s0, es, d).calls && After(s0, es, d).calls[c].stage.Answering?
    ensures var s := After(s0, es, d);
            var (id, value, o) := (s.calls[c].id, s.calls[c].stage.value, s.calls[c].stage.origin);
            var vs := Versions(s.history, id);
            id > 0 &&
            (value.Some? ==> (value == o.row || value == NormalView(o.row)) &&
                             WasVisible(vs, o.row, s.now - (1800 + id % 601 + 60) - 3 * d)) &&
            (value.None? ==> o.asOf >= s.now - 360 - 3 * d &&
                             ((id, o.asOf) in FailedLoads(s0, es, d) || WasVisible(vs, None, s.now - 360 - 3 * d)))
  {
    RunKeepsInv(s0, es, d);
    RunTraces(s0, es, d, {});
    var s := After(s0, es, d);
    hide IsRun, After, Versions, FailedLoads;
    var call := s.calls[c];
    assert CallOk(s, call, d);
    var o, vs := call.stage.origin, Versions(s.history, call.id);
    var from := s.now - L1_TTL - Ttl(call.id, call.stage.value) - 3 * d;
    assert o.asOf >= from;
    if !o.failed {
      VisibleEarlier(vs, o.row, o.asOf, from);
    }
  }
}
