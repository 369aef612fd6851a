/** What one call of `get_problem` does with nobody else at work, as a run of the interleaved
    system: so that system has the runs of the code, and each of its events its effect. */
module ProblemAlone {
  import opened Wrappers
  import opened ProblemDetail
  import opened ProblemStaleness

  /** What happens to one call: whether Redis answers the first and the second look, whether
      it gets the rebuild lock, and whether the load and the write to Redis succeed. */
  datatype Luck = Luck(first: bool, lock: bool, again: bool, load: bool, save: bool)

  predicate InL1(s: State, proc: nat, id: int) { Slot(proc, id) in s.l1 && s.now < s.l1[Slot(proc, id)].expire }

  predicate InRedis(s: State, id: int) { id in s.redis && s.now < s.redis[id].expire }

  ghost predicate Gives(s: State, es: seq<Event>, d: nat, r: State) { IsRun(s, es, d) && After(s, es, d) == r }

  lemma Before(s: State, e: Event, es: seq<Event>, d: nat, r: State)
    requires Enabled(s, e, d) && Positive(s) && Gives(Apply(s, e, d), es, d, r)
    ensures Gives(s, [e] + es, d, r)
  {
    hide Apply, Enabled, Positive;
    assert ([e] + es)[1..] == es;
  }

  /** The state with just this call at this stage. */
  function Only(s: State, c: nat, call: Call, st: Stage): State { s.(calls := map[c := call.(stage := st)]) }

  /** The state in which the call ends. */
  function Ended(s: State, c: nat, call: Call, value: Answer, o: Origin, dt: nat): State {
    Only(s, c, call, Answering(value, o)).(now := s.now + dt)
  }

  function PutBy(s: State, call: Call, value: Answer, o: Origin): State {
    s.(l1 := s.l1[Slot(call.proc, call.id) := L1Entry(value, s.now + 60, o)])
  }

  function SavedBy(s: State, call: Call, value: Answer, o: Origin, save: bool): State {
    if !save then s
    else s.(redis := s.redis[call.id := RedisEntry(NormalView(value), s.now + (if value.None? then 300 else 1800 + call.id % 601), o)])
  }

  lemma AnsweringEnds(s: State, c: nat, call: Call, value: Answer, o: Origin, dt: nat, d: nat)
    requires call.id > 0 && s.now + dt <= call.begin + d
    ensures Gives(Only(s, c, call, Answering(value, o)), [Tick(dt)], d, Ended(s, c, call, value, o, dt))
  {
    var from := Only(s, c, call, Answering(value, o));
    Before(from, Tick(dt), [], d, Ended(s, c, call, value, o, dt));
    assert [Tick(dt)] + [] == [Tick(dt)];
  }

  lemma FetchedEnds(s: State, c: nat, call: Call, value: Answer, o: Origin, dt: nat, d: nat) returns (es: seq<Event>)
    requires call.id > 0 && s.now + dt <= call.begin + d
    ensures Gives(Only(s, c, call, Fetched(value, o)), es, d, Ended(PutBy(s, call, value, o), c, call, value, o, dt))
  {
    hide Gives;
    var from := Only(s, c, call, Fetched(value, o));
    var next := PutBy(s, call, value, o);
    AnsweringEnds(next, c, call, value, o, dt, d);
    assert Apply(from, PutL1(c), d) == Only(next, c, call, Answering(value, o));
    Before(from, PutL1(c), [Tick(dt)], d, Ended(next, c, call, value, o, dt));
    es := [PutL1(c)] + [Tick(dt)];
  }

  /** The last row written, if the load succeeds. */
  function Row(s: State, id: int, ok: bool): Answer {
    if ok && id in s.history && s.history[id] != [] then s.history[id][|s.history[id]| - 1].row else None
  }

  lemma LoadingEnds(s: State, c: nat, call: Call, luck: Luck, dt: nat, d: nat) returns (es: seq<Event>)
    requires call.id > 0 && s.now + dt <= call.begin + d && !call.bypass
    ensures var (row, o) := (Row(s, call.id, luck.load), Origin(s.now, Row(s, call.id, luck.load), !luck.load));
            Gives(Only(s, c, call, Loading), es, d,
                  Ended(PutBy(SavedBy(s, call, row, o, luck.save), call, row, o), c, call, row, o, dt))
  {
    hide Gives, Apply, Enabled, Ended, PutBy, SavedBy, Only, Row;
    var row := Row(s, call.id, luck.load);
    var o := Origin(s.now, row, !luck.load);
    var next := SavedBy(s, call, row, o, luck.save);
    var end := Ended(PutBy(next, call, row, o), c, call, row, o, dt);
    assert next.now == s.now by { SavedByKeeps(s, call, row, o, luck.save); }
    es := FetchedEnds(next, c, call, row, o, dt, d);
    SaveStep(s, c, call, row, o, luck.save, d);
    Before(Only(s, c, call, Loaded(row, o)), Save(c, luck.save), es, d, end);
    LoadStep(s, c, call, luck.load, d);
    es := [Save(c, luck.save)] + es;
    Before(Only(s, c, call, Loading), Load(c, luck.load), es, d, end);
    es := [Load(c, luck.load)] + es;
  }

  lemma SavedByKeeps(s: State, call: Call, value: Answer, o: Origin, save: bool)
    ensures SavedBy(s, call, value, o, save).now == s.now
  {
  }

  lemma SaveStep(s: State, c: nat, call: Call, value: Answer, o: Origin, save: bool, d: nat)
    requires call.id > 0
    ensures var from := Only(s, c, call, Loaded(value, o));
            Enabled(from, Save(c, save), d) && Positive(from) &&
            Apply(from, Save(c, save), d) == Only(SavedBy(s, call, value, o, save), c, call, Fetched(value, o))
  {
    hide NormalView;
  }

  lemma LoadStep(s: State, c: nat, call: Call, ok: bool, d: nat)
    requires call.id > 0 && !call.bypass
    ensures var (from, row) := (Only(s, c, call, Loading), Row(s, call.id, ok));
            Enabled(from, Load(c, ok), d) && Positive(from) &&
            Apply(from, Load(c, ok), d) == Only(s, c, call, Loaded(row, Origin(s.now, row, !ok)))
  {
  }

  /** The event takes the call from one stage to another and does nothing else. */
  predicate Moves(s: State, c: nat, call: Call, st: Stage, e: Event, next: Stage, d: nat) {
    var from := Only(s, c, call, st);
    Enabled(from, e, d) && Positive(from) && Apply(from, e, d) == Only(s, c, call, next)
  }

  lemma Moved(s: State, c: nat, call: Call, st: Stage, e: Event, next: Stage, es: seq<Event>, d: nat, end: State)
    requires Moves(s, c, call, st, e, next, d) && Gives(Only(s, c, call, next), es, d, end)
    ensures Gives(Only(s, c, call, st), [e] + es, d, end)
  {
    hide Apply, Enabled, Positive, Gives;
    Before(Only(s, c, call, st), e, es, d, end);
  }

  lemma LockMoves(s: State, c: nat, call: Call, got: bool, d: nat)
    requires call.id > 0
    ensures Moves(s, c, call, RedisMissed, Lock(c, got), if got then Loading else Unlocked, d)
  {
    hide Saved, Kept, LoadNow, L1Hit, RedisHit, Versions;
  }

  lemma AgainMoves(s: State, c: nat, call: Call, up: bool, d: nat)
    requires call.id > 0
    ensures var hit := up && InRedis(s, call.id);
            Moves(s, c, call, Unlocked, LookAgain(c, up),
                  if !hit then Loading
                  else if s.redis[call.id].value.None? then Answering(None, s.redis[call.id].origin)
                  else Fetched(s.redis[call.id].value, s.redis[call.id].origin), d)
  {
    hide Saved, Kept, LoadNow, L1Hit, Versions;
  }

  lemma RedisMoves(s: State, c: nat, call: Call, up: bool, d: nat)
    requires call.id > 0
    ensures Moves(s, c, call, L1Missed, LookRedis(c, up),
                  if up && InRedis(s, call.id) then Fetched(s.redis[call.id].value, s.redis[call.id].origin) else RedisMissed, d)
  {
    hide Saved, Kept, LoadNow, L1Hit, Versions;
  }

  lemma L1Moves(s: State, c: nat, call: Call, d: nat)
    requires call.id > 0 && !call.bypass
    ensures var slot := Slot(call.proc, call.id);
            Moves(s, c, call, Began, LookL1(c),
                  if InL1(s, call.proc, call.id) then Answering(s.l1[slot].value, s.l1[slot].origin) else L1Missed, d)
  {
    hide Saved, Kept, LoadNow, RedisHit, Versions;
  }

  lemma BypassMoves(s: State, c: nat, call: Call, ok: bool, d: nat)
    requires call.id > 0 && call.bypass
    ensures var row := Row(s, call.id, ok);
            Moves(s, c, call, Began, Load(c, ok), Answering(row, Origin(s.now, row, !ok)), d)
  {
    hide Saved, Kept, L1Hit, RedisHit;
  }

  /** The second look, after waiting for the lock. */
  lemma UnlockedEnds(s: State, c: nat, call: Call, luck: Luck, dt: nat, d: nat) returns (es: seq<Event>)
    requires call.id > 0 && s.now + dt <= call.begin + d && !call.bypass
    requires luck.again && InRedis(s, call.id)
    ensures var (value, o) := (s.redis[call.id].value, s.redis[call.id].origin);
            Gives(Only(s, c, call, Unlocked), es, d,
                  Ended(if value.None? then s else PutBy(s, call, value, o), c, call, value, o, dt))
  {
    hide Gives, Moves, Only, Ended, PutBy;
    var value, o := s.redis[call.id].value, s.redis[call.id].origin;
    AgainMoves(s, c, call, true, d);
    if value.None? {
      es := [Tick(dt)];
      AnsweringEnds(s, c, call, value, o, dt, d);
      Moved(s, c, call, Unlocked, LookAgain(c, true), Answering(None, o), es, d, Ended(s, c, call, value, o, dt));
    } else {
      es := FetchedEnds(s, c, call, value, o, dt, d);
      Moved(s, c, call, Unlocked, LookAgain(c, true), Fetched(value, o), es, d,
            Ended(PutBy(s, call, value, o), c, call, value, o, dt));
    }
    es := [LookAgain(c, true)] + es;
  }

  /** From the miss in Redis on. */
  lemma MissedEnds(s: State, c: nat, call: Call, luck: Luck, dt: nat, d: nat) returns (es: seq<Event>, end: State)
    requires call.id > 0 && s.now + dt <= call.begin + d && !call.bypass
    ensures Gives(Only(s, c, call, RedisMissed), es, d, end)
    ensures var row := Row(s, call.id, luck.load);
            var o := Origin(s.now, row, !luck.load);
            end ==
              if !luck.lock && luck.again && InRedis(s, call.id) then
                var (value, origin) := (s.redis[call.id].value, s.redis[call.id].origin);
                Ended(if value.None? then s else PutBy(s, call, value, origin), c, call, value, origin, dt)
              else Ended(PutBy(SavedBy(s, call, row, o, luck.save), call, row, o), c, call, row, o, dt)
  {
    hide Gives, Moves, Only, Ended, PutBy, SavedBy, Row;
    LockMoves(s, c, call, luck.lock, d);
    if !luck.lock && luck.again && InRedis(s, call.id) {
      var value, o := s.redis[call.id].value, s.redis[call.id].origin;
      es := UnlockedEnds(s, c, call, luck, dt, d);
      end := Ended(if value.None? then s else PutBy(s, call, value, o), c, call, value, o, dt);
    } else {
      var row := Row(s, call.id, luck.load);
      var o := Origin(s.now, row, !luck.load);
      end := Ended(PutBy(SavedBy(s, call, row, o, luck.save), call, row, o), c, call, row, o, dt);
      es := LoadingEnds(s, c, call, luck, dt, d);
      if !luck.lock {
        AgainMoves(s, c, call, luck.again, d);
        Moved(s, c, call, Unlocked, LookAgain(c, luck.again), Loading, es, d, end);
        es := [LookAgain(c, luck.again)] + es;
      }
    }
    Moved(s, c, call, RedisMissed, Lock(c, luck.lock), if luck.lock then Loading else Unlocked, es, d, end);
    es := [Lock(c, luck.lock)] + es;
  }

  /** `get_problem` as a run of its own: it asks L1, Redis and MySQL in this order, keeps in
      L1 for a minute what did not come from there, and stores in Redis what it loaded; an
      empty answer of the second look is not kept.  Then `dt` passes. */
  lemma GetAlone(s: State, c: nat, proc: nat, id: int, bypass: bool, luck: Luck, dt: nat, d: nat)
      returns (es: seq<Event>)
    requires s.calls == map[] && id > 0 && dt <= d
    ensures var call := Call(proc, id, s.now, bypass, Began);
            var row := Row(s, id, luck.load);
            var o := Origin(s.now, row, !luck.load);
            if bypass then Gives(s, es, d, Ended(s, c, call, row, o, dt))
            else if InL1(s, proc, id) then
              Gives(s, es, d, Ended(s, c, call, s.l1[Slot(proc, id)].value, s.l1[Slot(proc, id)].origin, dt))
            else if InRedis(s, id) && (luck.first || (!luck.lock && luck.again)) then
              var (value, origin) := (s.redis[id].value, s.redis[id].origin);
              Gives(s, es, d, Ended(if value.None? && !luck.first then s else PutBy(s, call, value, origin), c, call, value, origin, dt))
            else Gives(s, es, d, Ended(PutBy(SavedBy(s, call, row, o, luck.save), call, row, o), c, call, row, o, dt))
  {
    hide Gives, Moves, Ended, PutBy, SavedBy, Row;
    var call := Call(proc, id, s.now, bypass, Began);
    var end: State;
    if bypass {
      var row := Row(s, id, luck.load);
      var o := Origin(s.now, row, !luck.load);
      end := Ended(s, c, call, row, o, dt);
      AnsweringEnds(s, c, call, row, o, dt, d);
      BypassMoves(s, c, call, luck.load, d);
      Moved(s, c, call, Began, Load(c, luck.load), Answering(row, o), [Tick(dt)], d, end);
      es := [Load(c, luck.load)] + [Tick(dt)];
    } else {
      es, end := NotBypassing(s, c, call, luck, dt, d);
    }
    assert Apply(s, Begin(c, proc, id, bypass), d) == Only(s, c, call, Began);
    Before(s, Begin(c, proc, id, bypass), es, d, end);
    es := [Begin(c, proc, id, bypass)] + es;
  }

  lemma NotBypassing(s: State, c: nat, call: Call, luck: Luck, dt: nat, d: nat) returns (es: seq<Event>, end: State)
    requires call.id > 0 && s.now + dt <= call.begin + d && !call.bypass
    ensures Gives(Only(s, c, call, Began), es, d, end)
    ensures var row := Row(s, call.id, luck.load);
            var o := Origin(s.now, row, !luck.load);
            end ==
              if InL1(s, call.proc, call.id) then
                Ended(s, c, call, s.l1[Slot(call.proc, call.id)].value, s.l1[Slot(call.proc, call.id)].origin, dt)
              else if InRedis(s, call.id) && (luck.first || (!luck.lock && luck.again)) then
                var (value, origin) := (s.redis[call.id].value, s.redis[call.id].origin);
                Ended(if value.None? && !luck.first then s else PutBy(s, call, value, origin), c, call, value, origin, dt)
              else Ended(PutBy(SavedBy(s, call, row, o, luck.save), call, row, o), c, call, row, o, dt)
  {
    hide Gives, Moves, Only, Ended, PutBy, SavedBy, Row;
    L1Moves(s, c, call, d);
    if InL1(s, call.proc, call.id) {
      var entry := s.l1[Slot(call.proc, call.id)];
      end := Ended(s, c, call, entry.value, entry.origin, dt);
      AnsweringEnds(s, c, call, entry.value, entry.origin, dt, d);
      Moved(s, c, call, Began, LookL1(c), Answering(entry.value, entry.origin), [Tick(dt)], d, end);
      return [LookL1(c)] + [Tick(dt)], end;
    }
    RedisMoves(s, c, call, luck.first, d);
    if luck.first && InRedis(s, call.id) {
      var entry := s.redis[call.id];
      end := Ended(PutBy(s, call, entry.value, entry.origin), c, call, entry.value, entry.origin, dt);
      es := FetchedEnds(s, c, call, entry.value, entry.origin, dt, d);
      Moved(s, c, call, L1Missed, LookRedis(c, luck.first), Fetched(entry.value, entry.origin), es, d, end);
    } else {
      es, end := MissedEnds(s, c, call, luck, dt, d);
      Moved(s, c, call, L1Missed, LookRedis(c, luck.first), RedisMissed, es, d, end);
    }
    es := [LookRedis(c, luck.first)] + es;
    Moved(s, c, call, Began, LookL1(c), L1Missed, es, d, end);
    es := [LookL1(c)] + es;
  }

  /** The statement a call is at, by its event. */
  function Statement(e: Event): nat {
    match e
    case LookL1(_) => 1 case LookRedis(_, _) => 2 case Lock(_, _) => 3 case LookAgain(_, _) => 4
    case Load(_, _) => 5 case Save(_, _) => 6 case PutL1(_) => 7 case Return(_) => 8 case _ => 0
  }

  predicate OfCall(e: Event) { Statement(e) > 0 }

  function Caller(e: Event): nat
    requires OfCall(e)
  {
    match e
    case LookL1(c) => c case LookRedis(c, _) => c case Lock(c, _) => c case LookAgain(c, _) => c
    case Load(c, _) => c case Save(c, _) => c case PutL1(c) => c case Return(c) => c
  }

  /** A call has one way on: its next statement does not depend on the others. */
  lemma OneWayOn(s: State, e: Event, f: Event, d: nat)
    requires Enabled(s, e, d) && Enabled(s, f, d) && OfCall(e) && OfCall(f) && Caller(e) == Caller(f)
    ensures Statement(e) == Statement(f)
  {
  }

  /** What the other events do, at any time. */
  lemma OtherEvents(s: State, id: int, row: Answer, slot: Slot, d: nat)
    requires Positive(s)
    ensures var e := WriteRow(id, row);
            Enabled(s, e, d) && Row(Apply(s, e, d), id, true) == row &&
            forall k :: k != id ==> Row(Apply(s, e, d), k, true) == Row(s, k, true)
    ensures Enabled(s, Erase(slot), d) && Apply(s, Erase(slot), d) == s.(l1 := s.l1 - {slot})
    ensures Enabled(s, Event.Del(id), d) && Apply(s, Event.Del(id), d) == s.(redis := s.redis - {id})
    ensures forall c :: c in s.calls && s.calls[c].stage.Answering? ==>
              Enabled(s, Return(c), d) && Apply(s, Return(c), d) == s.(calls := s.calls - {c})
    ensures forall history, now :: Initial(State(now, history, map[], map[], map[]))
  {
  }
}
