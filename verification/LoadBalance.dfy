/** Least-load choice (nl-judge/src/load_balance.cpp) and its use when a judge node decides
    whether to keep a task or to put it back for another node (nl-judge/src/node.cpp). */
module LoadBalance {
  import opened Wrappers
  import opened Text

  // ------------------------------------------------------- `std::string::operator<`

  predicate LexLess(a: string, b: string) {
    b != [] && (a == [] || a[0] < b[0] || (a[0] == b[0] && LexLess(a[1..], b[1..])))
  }

  lemma {:induction false} LexTotal(a: string, b: string)
    ensures a == b || LexLess(a, b) || LexLess(b, a)
    ensures !(LexLess(a, b) && LexLess(b, a)) && !LexLess(a, a)
  {
    if a != [] {
      LexTotal(a[1..], a[1..]);
      if b != [] {
        LexTotal(a[1..], b[1..]);
        assert a[0] == b[0] && a[1..] == b[1..] ==> a == [b[0]] + b[1..] == b;
      }
    }
  }

  lemma {:induction false} LexTransitive(a: string, b: string, c: string)
    requires LexLess(a, b) && LexLess(b, c)
    ensures LexLess(a, c)
  {
    if a != [] && a[0] == b[0] == c[0] {
      LexTransitive(a[1..], b[1..], c[1..]);
    }
  }

  // ------------------------------------------------------------------------- machines

  datatype Machine = Machine(id: string, load: int, online: bool)

  /** Smaller load first, then smaller id. */
  predicate Before(a: Machine, b: Machine) {
    a.load < b.load || (a.load == b.load && LexLess(a.id, b.id))
  }

  ghost predicate Valid(ms: seq<Machine>) {
    && (forall i :: 0 <= i < |ms| ==> ms[i].load >= 0 && ms[i].id != [])
    && (forall i, j :: 0 <= i < j < |ms| ==> ms[i].id != ms[j].id)
  }

  function IndexOf(ms: seq<Machine>, id: string): (n: nat)
    ensures n <= |ms|
    ensures forall i :: 0 <= i < n ==> ms[i].id != id
    ensures n < |ms| ==> ms[n].id == id
  {
    if ms == [] || ms[0].id == id then 0 else 1 + IndexOf(ms[1..], id)
  }

  lemma IndexIs(ms: seq<Machine>, id: string, n: nat)
    requires n <= |ms| && forall i :: 0 <= i < n ==> ms[i].id != id
    requires n < |ms| ==> ms[n].id == id
    ensures IndexOf(ms, id) == n
  {
    var k := IndexOf(ms, id);
    assert k < |ms| ==> ms[k].id == id;
    assert n < |ms| ==> ms[n].id == id;
  }

  function AtLeastZero(load: int): int { if load < 0 then 0 else load }

  /** The four operations, on the vector of machines. */
  datatype Op = Upsert(id: string, load: int, online: bool) | SetOnline(id: string, online: bool)
              | IncLoad(id: string) | DecLoad(id: string)

  function Do(ms: seq<Machine>, op: Op): seq<Machine> {
    var n := IndexOf(ms, op.id);
    match op
    case Upsert(id, load, online) =>
      if id == [] then ms
      else if n < |ms| then ms[n := Machine(id, AtLeastZero(load), online)]
      else ms + [Machine(id, AtLeastZero(load), online)]
    case SetOnline(id, online) => if n < |ms| then ms[n := ms[n].(online := online)] else ms
    case IncLoad(id) => if n < |ms| then ms[n := ms[n].(load := ms[n].load + 1)] else ms
    case DecLoad(id) => if n < |ms| && ms[n].load > 0 then ms[n := ms[n].(load := ms[n].load - 1)] else ms
  }

  lemma {:induction false} DoKeepsValid(ms: seq<Machine>, op: Op)
    requires Valid(ms)
    ensures Valid(Do(ms, op))
  {
    hide IndexOf;
    var n, after := IndexOf(ms, op.id), Do(ms, op);
    assert forall i :: 0 <= i < |ms| ==> after[i].id == ms[i].id && after[i].load >= 0;
  }

  function DoAll(ms: seq<Machine>, ops: seq<Op>): seq<Machine>
    decreases |ops|
  {
    if ops == [] then ms else DoAll(Do(ms, ops[0]), ops[1..])
  }

  /** Ids stay unique and loads non-negative over any sequence of operations. */
  lemma {:induction false} ValidOverAnyRun(ms: seq<Machine>, ops: seq<Op>)
    requires Valid(ms)
    ensures Valid(DoAll(ms, ops))
    decreases |ops|
  {
    if ops != [] {
      DoKeepsValid(ms, ops[0]);
      ValidOverAnyRun(Do(ms, ops[0]), ops[1..]);
    }
  }

  /** The last operation of a run acts on what the earlier ones left. */
  lemma {:induction false} LastOperation(ms: seq<Machine>, ops: seq<Op>, last: Op)
    ensures DoAll(ms, ops + [last]) == Do(DoAll(ms, ops), last)
    decreases |ops|
  {
    hide Do;
    if ops == [] {
      assert [] + [last] == [last] && [last][1..] == [];
    } else {
      LastOperation(Do(ms, ops[0]), ops[1..], last);
      assert (ops + [last])[1..] == ops[1..] + [last];
    }
  }

  /** `id` names the machine to choose: online and before every other online one. */
  ghost predicate IsLeast(ms: seq<Machine>, id: string) {
    exists k :: 0 <= k < |ms| && ms[k].online && ms[k].id == id &&
      forall i :: 0 <= i < |ms| && ms[i].online ==> ms[i] == ms[k] || Before(ms[k], ms[i])
  }

  class Balancer {
    var machines: seq<Machine>

    constructor ()
      ensures machines == []
    {
      machines := [];
    }

    method Find(id: string) returns (n: nat)
      ensures n == IndexOf(machines, id)
    {
      n := 0;
      while n < |machines|
        invariant n <= |machines| && forall i :: 0 <= i < n ==> machines[i].id != id
      {
        if machines[n].id == id {
          IndexIs(machines, id, n);
          return;
        }
        n := n + 1;
      }
      IndexIs(machines, id, n);
    }

    method Upsert(id: string, load: int, online: bool)
      modifies this
      ensures machines == Do(old(machines), Op.Upsert(id, load, online))
    {
      if id == [] {
        return;
      }
      var fixed := if load < 0 then 0 else load;
      var n := Find(id);
      if n < |machines| {
        machines := machines[n := machines[n].(load := fixed, online := online)];
        return;
      }
      machines := machines + [Machine(id, fixed, online)];
    }

    method SetOnline(id: string, online: bool)
      modifies this
      ensures machines == Do(old(machines), Op.SetOnline(id, online))
    {
      var n := Find(id);
      if n < |machines| {
        machines := machines[n := machines[n].(online := online)];
      }
    }

    method IncLoad(id: string) returns (load: int)
      modifies this
      ensures machines == Do(old(machines), Op.IncLoad(id))
      ensures var n := IndexOf(machines, id); load == if n < |machines| then machines[n].load else -1
    {
      var n := Find(id);
      if n < |machines| {
        ghost var before := machines;
        machines := machines[n := machines[n].(load := machines[n].load + 1)];
        IndexIs(machines, id, n);
        return machines[n].load;
      }
      return -1;
    }

    method DecLoad(id: string) returns (load: int)
      modifies this
      ensures machines == Do(old(machines), Op.DecLoad(id))
      ensures var n := IndexOf(machines, id); load == if n < |machines| then machines[n].load else -1
    {
      var n := Find(id);
      if n < |machines| {
        if machines[n].load > 0 {
          machines := machines[n := machines[n].(load := machines[n].load - 1)];
        }
        IndexIs(machines, id, n);
        return machines[n].load;
      }
      return -1;
    }

    method Pick() returns (best: Option<string>)
      requires Valid(machines)
      ensures best.None? <==> forall i :: 0 <= i < |machines| ==> !machines[i].online
      ensures best.Some? ==> IsLeast(machines, best.value)
    {
      best := None;
      var bestLoad := 0;
      ghost var k := 0;
      for i := 0 to |machines|
        invariant best.None? ==> forall j :: 0 <= j < i ==> !machines[j].online
        invariant best.Some? ==> 0 <= k < i && machines[k].online && machines[k].id == best.value && machines[k].load == bestLoad
        invariant best.Some? ==> forall j :: 0 <= j < i && machines[j].online ==> j == k || Before(machines[k], machines[j])
      {
        var m := machines[i];
        if !m.online {
          continue;
        }
        if best.None? || m.load < bestLoad || (m.load == bestLoad && LexLess(m.id, best.value)) {
          ghost var old_k := k;
          if best.Some? {
            forall j | 0 <= j < i && machines[j].online ensures Before(m, machines[j]) {
              BeforeTransitive(m, machines[old_k], machines[j]);
            }
          }
          best, bestLoad := Some(m.id), m.load;
          k := i;
        } else {
          LexTotal(m.id, best.value);
        }
      }
    }
  }

  lemma BeforeTransitive(a: Machine, b: Machine, c: Machine)
    requires Before(a, b) && (b == c || Before(b, c))
    ensures Before(a, c)
  {
    if a.load == b.load == c.load && b != c {
      LexTransitive(a.id, b.id, c.id);
    }
  }

  /** Two lists of the same machines, in whatever order they registered, have the same
      choice; in particular one list has only one. */
  lemma LeastIgnoresOrder(ms: seq<Machine>, ns: seq<Machine>, a: string, b: string)
    requires Valid(ms) && Valid(ns) && (forall m :: m in ms <==> m in ns)
    requires IsLeast(ms, a) && IsLeast(ns, b)
    ensures a == b
  {
    var k :| 0 <= k < |ms| && ms[k].online && ms[k].id == a &&
      forall i :: 0 <= i < |ms| && ms[i].online ==> ms[i] == ms[k] || Before(ms[k], ms[i]);
    var l :| 0 <= l < |ns| && ns[l].online && ns[l].id == b &&
      forall i :: 0 <= i < |ns| && ns[i].online ==> ns[i] == ns[l] || Before(ns[l], ns[i]);
    assert ms[k] in ns && ns[l] in ms;
    LexTotal(a, b);
  }

  // ------------------------------------------------------------------------- deferral

  /** A node's load as stored in Redis: a missing or unreadable value counts as 0. */
  function LoadOf(raw: Option<string>): int {
    if raw.None? || StoI(raw.value).None? then 0 else AtLeastZero(StoI(raw.value).value)
  }

  /** A load that was stored is read back, and is 0 if it was negative or too large. */
  lemma StoredLoad(n: int)
    ensures LoadOf(None) == 0
    ensures LoadOf(Some(Decimal(n))) == if 0 <= n < 0x8000_0000 then n else 0
  {
    ScanDecimal(n, []);
    assert Decimal(n) + [] == Decimal(n);
  }

  /** The table `least_loaded_online_node` builds from the listed ids. */
  function Snapshot(ids: seq<string>, raw: string -> Option<string>): seq<Machine> {
    if ids == [] then []
    else
      var id := ids[|ids| - 1];
      Do(Snapshot(ids[..|ids| - 1], raw), Op.Upsert(id, LoadOf(raw(id)), true))
  }

  function Row(id: string, raw: string -> Option<string>): Machine { Machine(id, LoadOf(raw(id)), true) }

  /** The snapshot holds every listed node once, online, with its stored load. */
  lemma {:induction false} SnapshotHolds(ids: seq<string>, raw: string -> Option<string>)
    requires [] !in ids
    ensures Valid(Snapshot(ids, raw))
    ensures forall id :: id in ids <==> Row(id, raw) in Snapshot(ids, raw)
    ensures forall m :: m in Snapshot(ids, raw) ==> m == Row(m.id, raw)
  {
    if ids != [] {
      var init, last := ids[..|ids| - 1], ids[|ids| - 1];
      var ms := Snapshot(init, raw);
      SnapshotHolds(init, raw);
      DoKeepsValid(ms, Op.Upsert(last, LoadOf(raw(last)), true));
      assert forall id :: id in ids <==> id in init || id == last;
      UpsertAdds(ms, last, LoadOf(raw(last)));
    }
  }

  lemma UpsertAdds(ms: seq<Machine>, id: string, load: int)
    requires id != [] && load >= 0 && (forall m :: m in ms && m.id == id ==> m == Machine(id, load, true))
    ensures forall m :: m in Do(ms, Op.Upsert(id, load, true)) <==> m in ms || m == Machine(id, load, true)
  {
    var n := IndexOf(ms, id);
    if n < |ms| {
      assert ms[n] in ms && ms[n := ms[n]] == ms;
    }
  }

  method ReadLoad(stored: Option<string>) returns (load: int)
    ensures load == LoadOf(stored)
  {
    hide StoI;
    load := 0;
    if stored.Some? {
      var v := StoI(stored.value);
      load := if v.None? then 0 else v.value;
      if load < 0 {
        load := 0;
      }
    }
  }

  method LeastLoadedOnlineNode(ids: seq<string>, raw: string -> Option<string>) returns (best: Option<string>)
    requires [] !in ids
    ensures best.None? <==> ids == []
    ensures best.Some? ==> IsLeast(Snapshot(ids, raw), best.value)
  {
    if ids == [] {
      return None;
    }
    hide IsLeast, LoadOf;
    var lb := new Balancer();
    for i := 0 to |ids|
      invariant lb.machines == Snapshot(ids[..i], raw)
    {
      assert ids[..i + 1][..i] == ids[..i];
      var load := ReadLoad(raw(ids[i]));
      lb.Upsert(ids[i], load, true);
    }
    assert ids[..|ids|] == ids;
    SnapshotHolds(ids, raw);
    assert ids[0] in ids;
    assert Row(ids[0], raw) in lb.machines;
    best := lb.Pick();
  }

  /** Among the listed nodes exactly the least keeps the task; each of the others hands it
      to a node strictly before itself, so tasks cannot circle on one snapshot. */
  lemma ExactlyOneKeeps(ids: seq<string>, raw: string -> Option<string>, best: string, node: string)
    requires [] !in ids && IsLeast(Snapshot(ids, raw), best) && node in ids
    ensures best in ids
    ensures node != best ==> Before(Row(best, raw), Row(node, raw)) && !Before(Row(node, raw), Row(best, raw))
  {
    SnapshotHolds(ids, raw);
    var ms := Snapshot(ids, raw);
    var k :| 0 <= k < |ms| && ms[k].online && ms[k].id == best &&
      forall i :: 0 <= i < |ms| && ms[i].online ==> ms[i] == ms[k] || Before(ms[k], ms[i]);
    assert ms[k] in ms && ms[k] == Row(best, raw);
    assert Row(node, raw) in ms;
    LexTotal(best, node);
  }
}
