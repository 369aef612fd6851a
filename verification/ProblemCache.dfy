/** The problem cache of nl-problem/src/module.cpp in one process, with Redis reachable and
    calls that do not overlap: after any sequence of gets and updates a cached read returns
    what an uncached one would; a create can break that, and it is said exactly when. */
module ProblemCache {
  import opened Wrappers
  import opened ProblemDetail

  const L1_CAP := 64

  /** `extra` is the column `extra_code`, which no detail shows. */
  datatype Row = Row(detail: Detail, extra: string, deleted: bool)

  datatype Entry = Entry(value: Option<Detail>, expire: int)

  /** The visible row of a problem. */
  function View(rows: map<int, Row>, id: int): Option<Detail> {
    if id in rows && !rows[id].deleted && rows[id].detail.visible == 1 then Some(rows[id].detail) else None
  }

  predicate Live(cache: map<int, Entry>, id: int, now: int) { id in cache && now < cache[id].expire }

  /** Every unexpired entry is what MySQL shows. */
  ghost predicate Coherent(rows: map<int, Row>, cache: map<int, Entry>, now: int) {
    forall id :: Live(cache, id, now) ==> cache[id].value == View(rows, id)
  }

  // ------------------------------------------------------------------------- requests

  /** `CreateProblemRequest`, for creating and for updating. */
  datatype Request = Request(
    title: string, difficulty: string, description: string, timeLimit: int, memoryLimit: int,
    visible: int, problemType: string, judgeMode: string, extra: string)

  /** What `create_problem` and `update_problem` take, after the defaults for the two
      judging columns. */
  predicate Acceptable(r: Request) {
    && r.title != "" && |r.title| <= 256 && r.description != ""
    && r.difficulty in {"EASY", "MEDIUM", "HARD"} && r.timeLimit > 0 && r.memoryLimit > 0
    && (r.visible == 0 || r.visible == 1)
    && r.problemType in {"", "STANDARD", "INTERACTIVE", "COMMUNICATION"} && r.judgeMode in {"", "EXACT", "SPJ"}
    && (r.problemType in {"INTERACTIVE", "COMMUNICATION"} || r.judgeMode == "SPJ" ==> r.extra != "")
    && |r.extra| <= 64 * 1024
  }

  /** The detail has the columns of the request. */
  predicate Shows(d: Detail, r: Request) {
    && d.title == r.title && d.difficulty == r.difficulty && d.description == r.description
    && d.timeLimit == r.timeLimit && d.memoryLimit == r.memoryLimit && d.visible == r.visible
    && d.problemType == (if r.problemType == "" then "STANDARD" else r.problemType)
    && d.judgeMode == (if r.judgeMode == "" then "EXACT" else r.judgeMode)
  }

  predicate Holds(row: Row, r: Request) { Shows(row.detail, r) && row.extra == r.extra }

  /** The columns an UPDATE leaves alone. */
  predicate SameRest(a: Row, b: Row) {
    && a.detail.id == b.detail.id && a.detail.createTime == b.detail.createTime
    && a.detail.samples == b.detail.samples && a.deleted == b.deleted
  }

  /** The checks both begin with; `norm` has the defaults filled in. */
  method CheckRequest(r: Request) returns (ok: bool, norm: Request)
    ensures ok == Acceptable(r)
    ensures ok ==>
              norm == r.(problemType := norm.problemType, judgeMode := norm.judgeMode) &&
              norm.problemType == (if r.problemType == "" then "STANDARD" else r.problemType) &&
              norm.judgeMode == (if r.judgeMode == "" then "EXACT" else r.judgeMode)
  {
    norm := r;
    if norm.title == "" || |norm.title| > 256 || norm.description == ""
       || (norm.difficulty != "EASY" && norm.difficulty != "MEDIUM" && norm.difficulty != "HARD")
       || norm.timeLimit <= 0 || norm.memoryLimit <= 0 || (norm.visible != 0 && norm.visible != 1) {
      return false, norm;
    }
    if norm.problemType == "" {
      norm := norm.(problemType := "STANDARD");
    }
    if norm.judgeMode == "" {
      norm := norm.(judgeMode := "EXACT");
    }
    if norm.problemType != "STANDARD" && norm.problemType != "INTERACTIVE" && norm.problemType != "COMMUNICATION" {
      return false, norm;
    }
    if norm.judgeMode != "EXACT" && norm.judgeMode != "SPJ" {
      return false, norm;
    }
    if (norm.problemType != "STANDARD" || norm.judgeMode == "SPJ") && norm.extra == "" {
      return false, norm;
    }
    return |norm.extra| <= 64 * 1024, norm;
  }

  /** Neither stores an empty judging column. */
  predicate Filled(d: Detail) { d.problemType != "" && d.judgeMode != "" }

  ghost predicate RowsOk(rows: map<int, Row>) {
    forall id :: id in rows ==> id > 0 && rows[id].detail.id == id && Filled(rows[id].detail)
  }

  lemma RowsOkWith(rows: map<int, Row>, id: int, row: Row)
    requires RowsOk(rows) && id in rows && row.detail.id == id && Filled(row.detail)
    ensures RowsOk(rows[id := row])
  {
  }

  lemma NormalFilled(rows: map<int, Row>, id: int)
    requires RowsOk(rows)
    ensures NormalView(View(rows, id)) == View(rows, id)
  {
  }

  lemma CoherentAt(rows: map<int, Row>, cache: map<int, Entry>, now: int, id: int)
    requires Coherent(rows, cache, now) && Live(cache, id, now)
    ensures cache[id].value == View(rows, id)
  {
  }

  /** Changing one row and dropping its entry leaves the others right. */
  lemma CoherentWithout(rows: map<int, Row>, cache: map<int, Entry>, now: int, id: int, row: Row)
    requires Coherent(rows, cache, now)
    ensures Coherent(rows[id := row], cache - {id}, now)
  {
  }

  lemma SmallerMap(m: map<int, Entry>, id: int)
    requires id in m
    ensures |m - {id}| == |m| - 1
  {
    assert m.Keys == (m - {id}).Keys + {id};
  }

  lemma EmptyMap(m: map<int, Entry>)
    requires forall k :: k !in m
    ensures |m| == 0
  {
    assert forall k :: k in m.Keys ==> k in {};
    assert m.Keys == {};
  }

  lemma HasKey(m: map<int, Entry>)
    requires |m| > 0
    ensures exists k :: k in m
  {
    if forall k :: k !in m {
      EmptyMap(m);
    }
  }

  /** Where the answer comes from: L1, Redis or MySQL. */
  function Answer(rows: map<int, Row>, l1: map<int, Entry>, redis: map<int, Entry>, now: int, id: int, skipCache: bool):
    Option<Detail>
  {
    if id <= 0 then None
    else if !skipCache && Live(l1, id, now) then l1[id].value
    else if !skipCache && Live(redis, id, now) then redis[id].value
    else View(rows, id)
  }

  class Cache {
    var rows: map<int, Row>
    var l1: map<int, Entry>
    var redis: map<int, Entry>
    var now: int
    var total: nat
    var l1Hits: nat
    var redisHits: nat
    var loads: nat

    /** What holds whatever is called. */
    ghost predicate Sane()
      reads this
    {
      RowsOk(rows) && |l1| <= L1_CAP && total == l1Hits + redisHits + loads
    }

    /** The cache tells the truth. */
    ghost predicate Truthful()
      reads this
    {
      Coherent(rows, l1, now) && Coherent(rows, redis, now)
    }

    constructor (rows: map<int, Row>, now: int)
      requires RowsOk(rows)
      ensures Sane() && Truthful() && this.rows == rows && this.now == now && l1 == map[] && redis == map[]
    {
      this.rows, this.now, l1, redis := rows, now, map[], map[];
      total, l1Hits, redisHits, loads := 0, 0, 0, 0;
    }

    /** An expired entry is erased when it is looked at. */
    method L1Get(id: int) returns (hit: bool, value: Option<Detail>)
      requires Sane()
      modifies this`l1
      ensures Sane() && hit == Live(old(l1), id, now)
      ensures old(Truthful()) ==> Truthful()
      ensures hit ==> l1 == old(l1) && value == l1[id].value
      ensures !hit ==> l1 == old(l1) - {id}
    {
      if id !in l1 {
        assert l1 - {id} == l1;
        return false, None;
      }
      if now >= l1[id].expire {
        SmallerMap(l1, id);
        l1 := l1 - {id};
        return false, None;
      }
      return true, l1[id].value;
    }

    /** A full table gives up an entry, whichever; it can be the one being replaced. */
    method L1Put(id: int, value: Option<Detail>)
      requires Sane()
      modifies this`l1
      ensures Sane()
      ensures old(Truthful()) && value == View(rows, id) ==> Truthful()
      ensures id in l1 && l1[id] == Entry(value, now + L1_TTL)
      ensures |old(l1)| < L1_CAP ==> l1 == old(l1)[id := Entry(value, now + L1_TTL)]
      ensures |old(l1)| >= L1_CAP ==>
                exists victim :: victim in old(l1) && l1 == (old(l1) - {victim})[id := Entry(value, now + L1_TTL)]
    {
      if |l1| >= 64 {
        var victim := AnyKey();
        SmallerMap(l1, victim);
        l1 := l1 - {victim};
      }
      l1 := l1[id := Entry(value, now + 60)];
    }

    /** `g_l1.begin()`. */
    method AnyKey() returns (k: int)
      requires |l1| > 0
      ensures k in l1
    {
      HasKey(l1);
      k :| k in l1;
    }

    method L1Erase(id: int)
      modifies this`l1
      ensures l1 == old(l1) - {id}
    {
      l1 := l1 - {id};
    }

    /** `write_problem_cache`: the stored text decodes to the detail with its defaults. */
    method WriteCache(id: int, detail: Option<Detail>)
      requires id > 0
      modifies this`redis
      ensures redis == old(redis)[id := Entry(NormalView(detail), now + Ttl(id, detail))]
    {
      hide Encode, Decode;
      match detail {
        case None => redis := redis[id := Entry(None, now + 300)];
        case Some(d) =>
          CodecRoundTrip(d);
          redis := redis[id := Entry(Decode(Encode(d)), now + 1800 + id % 601)];
      }
    }

    /** `invalidate_problem_cache`. */
    method Invalidate(id: int)
      modifies this`l1, this`redis
      ensures l1 == old(l1) - {id} && redis == old(redis) - {id}
    {
      L1Erase(id);
      redis := redis - {id};
    }

    method LoadFromDb(id: int) returns (detail: Option<Detail>)
      ensures detail == View(rows, id)
    {
      if id in rows && !rows[id].deleted && rows[id].detail.visible == 1 {
        return Some(rows[id].detail);
      }
      return None;
    }

    /** Load, write back and keep. */
    method Rebuild(id: int) returns (detail: Option<Detail>)
      requires Sane() && id > 0
      modifies this`l1, this`redis
      ensures Sane() && (old(Truthful()) ==> Truthful())
      ensures detail == View(rows, id) && Live(l1, id, now)
      ensures redis == old(redis)[id := Entry(detail, now + Ttl(id, detail))]
    {
      hide Ttl;
      detail := LoadFromDb(id);
      NormalFilled(rows, id);
      hide View;
      WriteCache(id, detail);
      assert old(Truthful()) ==> Truthful();
      L1Put(id, detail);
    }

    /** A Redis hit is kept in L1. */
    method TakeFromRedis(id: int) returns (detail: Option<Detail>)
      requires Sane() && Live(redis, id, now)
      modifies this`l1
      ensures Sane() && (old(Truthful()) ==> Truthful())
      ensures detail == redis[id].value && Live(l1, id, now)
    {
      hide Coherent, RowsOk, View;
      detail := redis[id].value;
      if Truthful() {
        CoherentAt(rows, redis, now, id);
      }
      L1Put(id, detail);
    }

    /** The cached way: L1, then Redis, then a rebuild. */
    method GetCached(id: int) returns (detail: Option<Detail>)
      requires Sane() && id > 0
      modifies this`l1, this`redis, this`total, this`l1Hits, this`redisHits, this`loads
      ensures Sane() && (old(Truthful()) ==> Truthful())
      ensures detail == Answer(rows, old(l1), old(redis), now, id, false) && Live(l1, id, now)
      ensures total == old(total) + 1
      ensures Live(old(l1), id, now) ==> redis == old(redis) && l1Hits == old(l1Hits) + 1
      ensures !Live(old(l1), id, now) && Live(old(redis), id, now) ==>
                redis == old(redis) && redisHits == old(redisHits) + 1
      ensures !Live(old(l1), id, now) && !Live(old(redis), id, now) ==>
                redis == old(redis)[id := Entry(detail, now + Ttl(id, detail))] && loads == old(loads) + 1
    {
      hide View, Ttl, Coherent, RowsOk;
      var hit;
      hit, detail := L1Get(id);
      if hit {
        total, l1Hits := total + 1, l1Hits + 1;
        return;
      }
      if id in redis && now < redis[id].expire {
        total, redisHits := total + 1, redisHits + 1;
        detail := TakeFromRedis(id);
        return;
      }
      total, loads := total + 1, loads + 1;
      detail := Rebuild(id);
    }

    /** The answer of the first table that has one, and with a truthful cache what MySQL
        shows, however it is asked for. */
    method GetProblem(id: int, skipCache: bool) returns (detail: Option<Detail>)
      requires Sane()
      modifies this`l1, this`redis, this`total, this`l1Hits, this`redisHits, this`loads
      ensures Sane() && detail == Answer(rows, old(l1), old(redis), now, id, skipCache)
      ensures old(Truthful()) ==> Truthful() && detail == View(rows, id)
      ensures total == old(total) + if id <= 0 then 0 else 1
      ensures skipCache || id <= 0 ==> l1 == old(l1) && redis == old(redis)
      ensures skipCache && id > 0 ==> loads == old(loads) + 1
      ensures !skipCache && id > 0 ==>
                Live(l1, id, now) &&
                redis == if Live(old(l1), id, now) || Live(old(redis), id, now) then old(redis)
                         else old(redis)[id := Entry(detail, now + Ttl(id, detail))]
    {
      hide Ttl;
      assert id <= 0 ==> id !in rows;
      if id <= 0 {
        return None;
      }
      if skipCache {
        total, loads := total + 1, loads + 1;
        detail := LoadFromDb(id);
        return;
      }
      detail := GetCached(id);
    }

    /** `update_problem`.  MySQL counts a row as affected only if a column changes, be it one
        no detail shows; nothing is invalidated otherwise. */
    method UpdateProblem(id: int, req: Request) returns (ok: bool)
      requires Sane()
      modifies this`rows, this`l1, this`redis
      ensures Sane() && (old(Truthful()) ==> Truthful())
      ensures ok <==> Acceptable(req) && id in old(rows) && !old(rows)[id].deleted && !Holds(old(rows)[id], req)
      ensures ok ==> id in rows && Holds(rows[id], req) && SameRest(rows[id], old(rows)[id])
      ensures rows == if ok then old(rows)[id := rows[id]] else old(rows)
      ensures l1 == (if ok then old(l1) - {id} else old(l1)) && redis == (if ok then old(redis) - {id} else old(redis))
    {
      hide Acceptable;
      var good, norm := CheckRequest(req);
      if id <= 0 || !good {
        return false;
      }
      if id !in rows || rows[id].deleted {
        return false;
      }
      var was := rows[id];
      var row := was.(extra := norm.extra,
                      detail := was.detail.(title := norm.title, difficulty := norm.difficulty, description := norm.description,
                                            timeLimit := norm.timeLimit, memoryLimit := norm.memoryLimit,
                                            visible := norm.visible, problemType := norm.problemType,
                                            judgeMode := norm.judgeMode));
      assert Holds(row, req) && SameRest(row, was) && Filled(row.detail);
      assert Holds(was, req) <==> row == was;
      if row == was {
        return false;
      }
      if id in l1 {
        SmallerMap(l1, id);
      } else {
        assert l1 - {id} == l1;
      }
      hide Holds, SameRest, Filled;
      if Truthful() {
        CoherentWithout(rows, l1, now, id, row);
        CoherentWithout(rows, redis, now, id, row);
      }
      RowsOkWith(rows, id, row);
      rows := rows[id := row];
      Invalidate(id);
      return true;
    }

    /** `create_problem` does not invalidate: what was cached for the id while there was no
        row stays. */
    method CreateProblem(id: int, createTime: string, req: Request) returns (ok: bool)
      requires Sane() && id > 0 && id !in rows
      modifies this`rows
      ensures Sane() && ok == Acceptable(req)
      ensures ok ==> id in rows && Holds(rows[id], req) && !rows[id].deleted &&
                     rows[id].detail.id == id && rows[id].detail.createTime == createTime && rows[id].detail.samples == []
      ensures rows == if ok then old(rows)[id := rows[id]] else old(rows)
    {
      hide Acceptable;
      var good, norm := CheckRequest(req);
      if !good {
        return false;
      }
      var detail := Detail(id, norm.title, norm.difficulty, norm.description, norm.timeLimit, norm.memoryLimit,
                           norm.visible, createTime, norm.problemType, norm.judgeMode, []);
      rows := rows[id := Row(detail, norm.extra, false)];
      return true;
    }

    method Tick(seconds: nat)
      modifies this`now
      ensures now == old(now) + seconds && (old(Truthful()) ==> Truthful())
    {
      now := now + seconds;
    }
  }

  /** After a create the cache is still right exactly if the new problem is hidden or its id
      has no unexpired entry: nobody asked for it lately. */
  lemma CreateKeepsCoherentIff(rows: map<int, Row>, cache: map<int, Entry>, now: int, id: int, row: Row)
    requires Coherent(rows, cache, now) && id !in rows && !row.deleted
    ensures Coherent(rows[id := row], cache, now) <==> row.detail.visible != 1 || !Live(cache, id, now)
  {
    var next := rows[id := row];
    if row.detail.visible != 1 || !Live(cache, id, now) {
      forall k | Live(cache, k, now) ensures cache[k].value == View(next, k) {
        assert cache[k].value == View(rows, k);
      }
    } else {
      assert cache[id].value == View(rows, id) == None && View(next, id) == Some(row.detail);
    }
  }

  /** What an update stored is what the next read gives, whatever was cached before. */
  method UpdateThenGet(c: Cache, id: int, req: Request, skipCache: bool) returns (ok: bool, detail: Option<Detail>)
    requires c.Sane()
    modifies c
    ensures ok && req.visible == 1 ==>
              id in old(c.rows) && detail.Some? && Shows(detail.value, req) && detail.value.id == id &&
              detail.value.createTime == old(c.rows)[id].detail.createTime &&
              detail.value.samples == old(c.rows)[id].detail.samples
    ensures ok && req.visible != 1 ==> detail == None
    ensures !ok && old(c.Truthful()) ==> detail == View(old(c.rows), id)
  {
    hide Acceptable;
    ok := c.UpdateProblem(id, req);
    detail := c.GetProblem(id, skipCache);
  }

  /** A visible problem whose id was asked for before it existed is answered empty for up to
      five minutes, although it is there; read directly it is what the request says. */
  method ProbedBeforeCreation(id: int, createTime: string, req: Request, wait: nat)
      returns (before: Option<Detail>, cached: Option<Detail>, direct: Option<Detail>)
    requires id > 0 && Acceptable(req) && req.visible == 1 && wait < 300
    ensures before == None && cached == None
    ensures direct.Some? && Shows(direct.value, req) && direct.value.id == id &&
            direct.value.createTime == createTime && direct.value.samples == []
  {
    hide Acceptable;
    var c := new Cache(map[], 0);
    before := c.GetProblem(id, false);
    var ok := c.CreateProblem(id, createTime, req);
    c.Tick(wait);
    cached := c.GetProblem(id, false);
    direct := c.GetProblem(id, true);
  }
}
