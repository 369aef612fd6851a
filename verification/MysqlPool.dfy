/** The MySQL connection pool of nl-common/src/mysql.cpp.

    `acquire` drops the pool's lock around `mysql_ping` and `mysql_real_connect`,
    so several callers can be half-way through it at once.  The three shared fields
    change only inside critical sections, written here as the functions `Reserve`,
    `Undo` and `GiveBack`.  They are used twice: by the class `Pool`, whose methods
    are the calls of one undisturbed caller, and by the step system `State`/`Event`,
    in which any number of callers interleave. */
module MysqlPool {
  import opened Wrappers

  type Conn = nat

  /** `app_config().mysql_pool_size`, which the configuration clamps to at least 1. */
  type Cap = n: int | 1 <= n witness 1

  datatype Shared = Shared(idle: seq<Conn>, live: int, overflow: int)

  const FRESH_POOL := Shared([], 0, 0)

  /** What a caller takes out of a critical section of `acquire`. */
  datatype Ticket = Ping(conn: Conn) | Open(extra: bool)

  /** The loop head and, when nothing is idle, the reservation below the loop. */
  function Reserve(sh: Shared, cap: Cap): (Shared, Ticket) {
    if sh.idle != [] then
      var n := |sh.idle| - 1;
      (sh.(idle := sh.idle[..n]), Ping(sh.idle[n]))
    else if sh.live >= cap then
      (sh.(overflow := sh.overflow + 1), Open(true))
    else
      (sh.(live := sh.live + 1), Open(false))
  }

  /** The critical section after a failed open. */
  function Undo(sh: Shared, extra: bool): Shared {
    if extra then sh.(overflow := sh.overflow - 1) else sh.(live := sh.live - 1)
  }

  /** `release` of a non-null connection. */
  function GiveBack(sh: Shared, c: Conn, cap: Cap): Shared {
    if sh.overflow > 0 then sh.(overflow := sh.overflow - 1)
    else if |sh.idle| >= cap then sh.(live := sh.live - 1)
    else sh.(idle := sh.idle + [c])
  }

  // ------------------------------------------------------------------ one caller

  /** `acquire` with nobody else inside: `alive` answers the pings, `newConn` the open. */
  function AcquireAlone(sh: Shared, cap: Cap, alive: Conn -> bool, newConn: Option<Conn>): (Shared, Option<Conn>)
    decreases |sh.idle|
  {
    var (sh1, t) := Reserve(sh, cap);
    match t
    case Ping(c) =>
      if alive(c) then (sh1, Some(c)) else AcquireAlone(sh1.(live := sh1.live - 1), cap, alive, newConn)
    case Open(extra) =>
      if newConn.Some? then (sh1, newConn) else (Undo(sh1, extra), None)
  }

  class Pool {
    var idle: seq<Conn>
    var live: int
    var overflow: int
    const cap: Cap

    function Fields(): Shared
      reads this
    {
      Shared(idle, live, overflow)
    }

    constructor (cap: Cap)
      ensures Fields() == FRESH_POOL && this.cap == cap
    {
      idle, live, overflow := [], 0, 0;
      this.cap := cap;
    }

    method Acquire(alive: Conn -> bool, newConn: Option<Conn>) returns (got: Option<Conn>)
      modifies this
      ensures (Fields(), got) == AcquireAlone(old(Fields()), cap, alive, newConn)
    {
      while idle != []
        invariant AcquireAlone(Fields(), cap, alive, newConn) == AcquireAlone(old(Fields()), cap, alive, newConn)
        decreases |idle|
      {
        var c := idle[|idle| - 1];
        idle := idle[..|idle| - 1];
        if alive(c) {
          return Some(c);
        }
        live := live - 1;
      }
      if live >= cap {
        overflow := overflow + 1;
        if newConn.None? {
          overflow := overflow - 1;
        }
        return newConn;
      }
      live := live + 1;
      if newConn.None? {
        live := live - 1;
      }
      return newConn;
    }

    method Release(c: Option<Conn>)
      modifies this
      ensures Fields() == if c.None? then old(Fields()) else GiveBack(old(Fields()), c.value, cap)
    {
      if c.None? {
        return;
      }
      if overflow > 0 {
        overflow := overflow - 1;
        return;
      }
      if |idle| >= cap {
        live := live - 1;
        return;
      }
      idle := idle + [c.value];
    }
  }

  // --------------------------------------------------------------- many callers

  /** Where one `MysqlConn` object stands: outside, or at a point of `acquire` with the
      lock released, or holding its connection. */
  datatype Pc =
    | Out
    | Pinging(conn: Conn)
    | Closed                  // ping failed and the connection is closed; lock not yet retaken
    | Opening(extra: bool)
    | OpenFailed(extra: bool) // open failed; lock not yet retaken
    | Holding(conn: Conn)

  /** `next` is the identity the next opened connection gets. */
  datatype State = State(sh: Shared, slots: seq<Pc>, next: Conn)

  datatype Event =
    | Enter(i: nat)      // lock, then `Reserve`
    | PingOk(i: nat)
    | PingDead(i: nat)   // ping fails, the connection is closed
    | Relock(i: nat)     // lock, `--live_`, then `Reserve` again
    | OpenOk(i: nat)
    | OpenErr(i: nat)
    | Rollback(i: nat)   // lock, `Undo`
    | Release(i: nat)    // lock, `GiveBack`

  predicate Enabled(s: State, e: Event) {
    e.i < |s.slots| &&
    match e
    case Enter(i) => s.slots[i].Out?
    case PingOk(i) => s.slots[i].Pinging?
    case PingDead(i) => s.slots[i].Pinging?
    case Relock(i) => s.slots[i].Closed?
    case OpenOk(i) => s.slots[i].Opening?
    case OpenErr(i) => s.slots[i].Opening?
    case Rollback(i) => s.slots[i].OpenFailed?
    case Release(i) => s.slots[i].Holding?
  }

  function PcOf(t: Ticket): Pc {
    match t
    case Ping(c) => Pinging(c)
    case Open(extra) => Opening(extra)
  }

  function Apply(s: State, e: Event, cap: Cap): State
    requires Enabled(s, e)
  {
    match e
    case Enter(i) =>
      var (sh, t) := Reserve(s.sh, cap);
      s.(sh := sh, slots := s.slots[i := PcOf(t)])
    case PingOk(i) => s.(slots := s.slots[i := Holding(s.slots[i].conn)])
    case PingDead(i) => s.(slots := s.slots[i := Closed])
    case Relock(i) =>
      var (sh, t) := Reserve(s.sh.(live := s.sh.live - 1), cap);
      s.(sh := sh, slots := s.slots[i := PcOf(t)])
    case OpenOk(i) => s.(slots := s.slots[i := Holding(s.next)], next := s.next + 1)
    case OpenErr(i) => s.(slots := s.slots[i := OpenFailed(s.slots[i].extra)])
    case Rollback(i) => s.(sh := Undo(s.sh, s.slots[i].extra), slots := s.slots[i := Out])
    case Release(i) => s.(sh := GiveBack(s.sh, s.slots[i].conn, cap), slots := s.slots[i := Out])
  }

  predicate IsRun(s: State, es: seq<Event>, cap: Cap)
    decreases |es|
  {
    es == [] || (Enabled(s, es[0]) && IsRun(Apply(s, es[0], cap), es[1..], cap))
  }

  function After(s: State, es: seq<Event>, cap: Cap): State
    requires IsRun(s, es, cap)
    decreases |es|
  {
    if es == [] then s else After(Apply(s, es[0], cap), es[1..], cap)
  }

  predicate Initial(s: State) {
    s.sh == FRESH_POOL && forall i :: 0 <= i < |s.slots| ==> s.slots[i].Out?
  }

  ghost predicate Reachable(s: State, cap: Cap) {
    exists s0, es :: Initial(s0) && IsRun(s0, es, cap) && After(s0, es, cap) == s
  }

  // -------------------------------------------------------------------- counting

  function One(b: bool): nat { if b then 1 else 0 }

  /** Callers acquiring or holding. */
  function Busy(ps: seq<Pc>): nat {
    if ps == [] then 0 else Busy(ps[..|ps| - 1]) + One(!ps[|ps| - 1].Out?)
  }

  /** Callers whose place is counted in `live_`, whatever the others do. */
  predicate IsSecured(p: Pc) {
    p.Pinging? || p.Closed? || p == Opening(false) || p == OpenFailed(false)
  }

  function Secured(ps: seq<Pc>): nat {
    if ps == [] then 0 else Secured(ps[..|ps| - 1]) + One(IsSecured(ps[|ps| - 1]))
  }

  /** Callers that have, or are about to get, an open connection to the server. */
  function Connected(ps: seq<Pc>): nat {
    if ps == [] then 0
    else Connected(ps[..|ps| - 1]) + One(ps[|ps| - 1].Pinging? || ps[|ps| - 1].Opening? || ps[|ps| - 1].Holding?)
  }

  lemma {:induction false} CountUpdate(ps: seq<Pc>, i: nat, p: Pc)
    requires i < |ps|
    ensures Busy(ps[i := p]) == Busy(ps) - One(!ps[i].Out?) + One(!p.Out?)
    ensures Secured(ps[i := p]) == Secured(ps) - One(IsSecured(ps[i])) + One(IsSecured(p))
  {
    var n := |ps| - 1;
    if i == n {
      assert ps[i := p][..n] == ps[..n];
    } else {
      assert ps[i := p][..n] == ps[..n][i := p];
      CountUpdate(ps[..n], i, p);
    }
  }

  lemma {:induction false} CountOrder(ps: seq<Pc>)
    ensures Secured(ps) <= Busy(ps) && Connected(ps) <= Busy(ps)
    ensures forall i :: 0 <= i < |ps| && ps[i].Holding? ==> Secured(ps) < Busy(ps)
    ensures Busy(ps) == 0 <==> forall i :: 0 <= i < |ps| ==> ps[i].Out?
  {
    if ps != [] {
      CountOrder(ps[..|ps| - 1]);
    }
  }

  // ------------------------------------------------------------------ invariants

  ghost predicate Counts(s: State, cap: Cap) {
    && s.sh.live + s.sh.overflow == |s.sh.idle| + Busy(s.slots)
    && |s.sh.idle| + Secured(s.slots) <= s.sh.live <= cap
    && (s.sh.overflow > 0 ==> s.sh.idle == [])
  }

  predicate Has(p: Pc) { p.Pinging? || p.Holding? }

  predicate Owns(p: Pc, c: Conn) { Has(p) && p.conn == c }

  ghost predicate IdleDistinct(idle: seq<Conn>, next: Conn) {
    && (forall k :: 0 <= k < |idle| ==> idle[k] < next)
    && (forall j, k :: 0 <= j < k < |idle| ==> idle[j] != idle[k])
  }

  /** Nobody but, possibly, slot `i` has `c`, and it is not idle. */
  ghost predicate FreeFor(idle: seq<Conn>, ps: seq<Pc>, i: nat, c: Conn) {
    c !in idle && forall j :: 0 <= j < |ps| && j != i ==> !Owns(ps[j], c)
  }

  /** Every open connection is in one place: idle once, or with one caller. */
  ghost predicate Exclusive(s: State) { Disjoint(s.sh.idle, s.slots, s.next) }

  ghost predicate Disjoint(idle: seq<Conn>, ps: seq<Pc>, next: Conn) {
    && IdleDistinct(idle, next)
    && forall i :: 0 <= i < |ps| && Has(ps[i]) ==> ps[i].conn < next && FreeFor(idle, ps, i, ps[i].conn)
  }

  lemma InitialCounts(s: State, cap: Cap)
    requires Initial(s)
    ensures Counts(s, cap) && Exclusive(s)
  {
    CountOrder(s.slots);
  }

  lemma StepKeepsCounts(s: State, e: Event, cap: Cap)
    requires Counts(s, cap) && Enabled(s, e)
    ensures Counts(Apply(s, e, cap), cap)
  {
    CountOrder(s.slots);
    CountUpdate(s.slots, e.i, Apply(s, e, cap).slots[e.i]);
  }

  lemma MoveSlot(idle: seq<Conn>, ps: seq<Pc>, next: Conn, i: nat, p: Pc)
    requires Disjoint(idle, ps, next) && i < |ps|
    requires Has(p) ==> p.conn < next && FreeFor(idle, ps, i, p.conn)
    ensures Disjoint(idle, ps[i := p], next)
  {
    var qs := ps[i := p];
    forall j | 0 <= j < |qs| && Has(qs[j]) ensures qs[j].conn < next && FreeFor(idle, qs, j, qs[j].conn) {
      if j != i {
        assert FreeFor(idle, ps, j, ps[j].conn);
      }
    }
  }

  lemma PopIdle(idle: seq<Conn>, ps: seq<Pc>, next: Conn, i: nat)
    requires Disjoint(idle, ps, next) && i < |ps| && idle != []
    ensures var n := |idle| - 1;
            Disjoint(idle[..n], ps, next) && idle[n] < next && FreeFor(idle[..n], ps, i, idle[n])
  {
    var n := |idle| - 1;
    forall j | 0 <= j < |ps| && Has(ps[j]) ensures FreeFor(idle[..n], ps, j, ps[j].conn) {
      assert FreeFor(idle, ps, j, ps[j].conn);
    }
    forall j | 0 <= j < |ps| ensures !Owns(ps[j], idle[n]) {
      if Has(ps[j]) {
        assert FreeFor(idle, ps, j, ps[j].conn) && idle[n] in idle;
      }
    }
  }

  lemma PushIdle(idle: seq<Conn>, ps: seq<Pc>, next: Conn, c: Conn)
    requires Disjoint(idle, ps, next) && c < next && FreeFor(idle, ps, |ps|, c)
    ensures Disjoint(idle + [c], ps, next)
  {
    forall j | 0 <= j < |ps| && Has(ps[j]) ensures FreeFor(idle + [c], ps, j, ps[j].conn) {
      assert FreeFor(idle, ps, j, ps[j].conn) && !Owns(ps[j], c);
    }
  }

  lemma FreshConn(idle: seq<Conn>, ps: seq<Pc>, next: Conn, i: nat)
    requires Disjoint(idle, ps, next) && i < |ps|
    ensures Disjoint(idle, ps, next + 1) && FreeFor(idle, ps, i, next)
  {
  }

  lemma StepKeepsExclusive(s: State, e: Event, cap: Cap)
    requires Exclusive(s) && Enabled(s, e)
    ensures Exclusive(Apply(s, e, cap))
  {
    var p := Apply(s, e, cap).slots[e.i];
    if e.Enter? || e.Relock? {
      if s.sh.idle != [] {
        PopIdle(s.sh.idle, s.slots, s.next, e.i);
        MoveSlot(s.sh.idle[..|s.sh.idle| - 1], s.slots, s.next, e.i, p);
      } else {
        MoveSlot(s.sh.idle, s.slots, s.next, e.i, p);
      }
    } else if e.OpenOk? {
      FreshConn(s.sh.idle, s.slots, s.next, e.i);
      MoveSlot(s.sh.idle, s.slots, s.next + 1, e.i, p);
    } else {
      MoveSlot(s.sh.idle, s.slots, s.next, e.i, p);
      if e.Release? {
        var c := s.slots[e.i].conn;
        assert FreeFor(s.sh.idle, s.slots, e.i, c);
        assert FreeFor(s.sh.idle, s.slots[e.i := p], |s.slots|, c);
        PushIdle(s.sh.idle, s.slots[e.i := p], s.next, c);
      }
    }
  }

  lemma {:induction false} RunKeeps(s: State, es: seq<Event>, cap: Cap)
    requires Counts(s, cap) && Exclusive(s) && IsRun(s, es, cap)
    ensures Counts(After(s, es, cap), cap) && Exclusive(After(s, es, cap))
    decreases |es|
  {
    if es != [] {
      StepKeepsCounts(s, es[0], cap);
      StepKeepsExclusive(s, es[0], cap);
      RunKeeps(Apply(s, es[0], cap), es[1..], cap);
    }
  }

  lemma ReachableKeeps(s: State, cap: Cap)
    requires Reachable(s, cap)
    ensures Counts(s, cap) && Exclusive(s)
  {
    var s0, es :| Initial(s0) && IsRun(s0, es, cap) && After(s0, es, cap) == s;
    InitialCounts(s0, cap);
    RunKeeps(s0, es, cap);
  }

  // ---------------------------------------------------------------- main results

  function Max(a: int, b: int): int { if a < b then b else a }

  /** Conservation and the bound on open connections, over every interleaving. */
  lemma OpenConnectionsBounded(s: State, cap: Cap)
    requires Reachable(s, cap)
    ensures s.sh.live + s.sh.overflow == |s.sh.idle| + Busy(s.slots)
    ensures 0 <= |s.sh.idle| <= s.sh.live <= cap
    ensures |s.sh.idle| + Connected(s.slots) <= Max(cap, Busy(s.slots))
  {
    ReachableKeeps(s, cap);
    CountOrder(s.slots);
  }

  /** A connection handed to one caller is neither idle nor handed to another. */
  lemma HeldByOne(s: State, cap: Cap, i: nat, j: nat)
    requires Reachable(s, cap) && i < |s.slots| && j < |s.slots|
    requires s.slots[i].Holding? && (s.slots[j].Holding? || s.slots[j].Pinging?)
    ensures s.slots[i].conn !in s.sh.idle
    ensures s.slots[i].conn == s.slots[j].conn ==> i == j
  {
    ReachableKeeps(s, cap);
    assert FreeFor(s.sh.idle, s.slots, i, s.slots[i].conn);
  }

  /** `release` never reaches its close-and-decrement branch, and an overflow phase
      never grows the idle list: it keeps nothing until the overflow is worked off. */
  lemma ReleaseBranches(s: State, cap: Cap, i: nat)
    requires Reachable(s, cap) && Enabled(s, Release(i))
    ensures s.sh.overflow <= 0 ==> |s.sh.idle| < cap
    ensures s.sh.overflow > 0 ==> s.sh.idle == []
    ensures var s1 := Apply(s, Release(i), cap);
            if s.sh.overflow > 0 then s1.sh == s.sh.(overflow := s.sh.overflow - 1)
            else s1.sh == s.sh.(idle := s.sh.idle + [s.slots[i].conn])
  {
    ReachableKeeps(s, cap);
    CountOrder(s.slots);
  }

  /** With no caller inside: `overflow_` is never positive, and it is zero exactly when
      `live_` counts the idle connections and nothing else. */
  lemma Quiescent(s: State, cap: Cap)
    requires Reachable(s, cap) && Busy(s.slots) == 0
    ensures s.sh.overflow <= 0 && s.sh.live == |s.sh.idle| - s.sh.overflow
    ensures s.sh.overflow == 0 <==> s.sh.live == |s.sh.idle|
  {
    ReachableKeeps(s, cap);
  }

  // -------------------------------------------------------- what the overflow counts

  predicate IsExtra(p: Pc) { p == Opening(true) || p == OpenFailed(true) }

  /** Overflow opens that have neither succeeded nor been undone. */
  function Pending(ps: seq<Pc>): nat {
    if ps == [] then 0 else Pending(ps[..|ps| - 1]) + One(IsExtra(ps[|ps| - 1]))
  }

  /** Overflow opens that succeeded along the run. */
  function Succeeded(s: State, es: seq<Event>, cap: Cap): nat
    requires IsRun(s, es, cap)
    decreases |es|
  {
    if es == [] then 0
    else One(es[0].OpenOk? && s.slots[es[0].i] == Opening(true)) + Succeeded(Apply(s, es[0], cap), es[1..], cap)
  }

  /** Releases along the run that were counted against `overflow_`. */
  function Consumed(s: State, es: seq<Event>, cap: Cap): nat
    requires IsRun(s, es, cap)
    decreases |es|
  {
    if es == [] then 0
    else One(es[0].Release? && s.sh.overflow > 0) + Consumed(Apply(s, es[0], cap), es[1..], cap)
  }

  lemma {:induction false} PendingUpdate(ps: seq<Pc>, i: nat, p: Pc)
    requires i < |ps|
    ensures Pending(ps[i := p]) == Pending(ps) - One(IsExtra(ps[i])) + One(IsExtra(p))
  {
    var n := |ps| - 1;
    if i == n {
      assert ps[i := p][..n] == ps[..n];
    } else {
      assert ps[i := p][..n] == ps[..n][i := p];
      PendingUpdate(ps[..n], i, p);
    }
  }

  lemma {:induction false} PendingNone(ps: seq<Pc>)
    requires forall i :: 0 <= i < |ps| ==> ps[i].Out?
    ensures Pending(ps) == 0
  {
    if ps != [] {
      PendingNone(ps[..|ps| - 1]);
    }
  }

  lemma {:induction false} PendingSome(ps: seq<Pc>, i: nat)
    requires i < |ps| && IsExtra(ps[i])
    ensures Pending(ps) > 0
  {
    if i < |ps| - 1 {
      PendingSome(ps[..|ps| - 1], i);
    }
  }

  lemma StepAccounts(s: State, e: Event, cap: Cap)
    requires Enabled(s, e)
    ensures var r := Apply(s, e, cap);
            r.sh.overflow - Pending(r.slots) ==
              s.sh.overflow - Pending(s.slots) + One(e.OpenOk? && s.slots[e.i] == Opening(true)) -
              One(e.Release? && s.sh.overflow > 0)
  {
    hide Pending;
    PendingUpdate(s.slots, e.i, Apply(s, e, cap).slots[e.i]);
  }

  lemma {:induction false} RunAccounts(s: State, es: seq<Event>, cap: Cap)
    requires IsRun(s, es, cap)
    ensures var r := After(s, es, cap);
            r.sh.overflow - Pending(r.slots) ==
              s.sh.overflow - Pending(s.slots) + Succeeded(s, es, cap) - Consumed(s, es, cap)
    decreases |es|
  {
    hide Apply, Enabled, Pending;
    if es != [] {
      StepAccounts(s, es[0], cap);
      RunAccounts(Apply(s, es[0], cap), es[1..], cap);
    }
  }

  /** What `overflow_` counts: the overflow opens pending or made, less the releases counted
      against it. */
  lemma OverflowAccount(s0: State, es: seq<Event>, cap: Cap)
    requires Initial(s0) && IsRun(s0, es, cap)
    ensures var s := After(s0, es, cap);
            s.sh.overflow == Pending(s.slots) + Succeeded(s0, es, cap) - Consumed(s0, es, cap)
  {
    hide Apply, Enabled, Pending;
    PendingNone(s0.slots);
    RunAccounts(s0, es, cap);
  }

  /** The exact step at which `overflow_` turns negative: undoing an overflow open when it is
      zero.  It is zero then because more releases than successful overflow opens have been
      counted against it, one of them against an open that was still pending. */
  lemma TurnsNegativeExactly(s0: State, es: seq<Event>, e: Event, cap: Cap)
    requires Initial(s0) && IsRun(s0, es, cap) && Enabled(After(s0, es, cap), e) && After(s0, es, cap).sh.overflow >= 0
    ensures var s := After(s0, es, cap);
            Apply(s, e, cap).sh.overflow < 0 <==>
              s.sh.overflow == 0 && e.Rollback? && s.slots[e.i] == OpenFailed(true)
    ensures Apply(After(s0, es, cap), e, cap).sh.overflow < 0 ==>
              Consumed(s0, es, cap) == Succeeded(s0, es, cap) + Pending(After(s0, es, cap).slots) > Succeeded(s0, es, cap)
  {
    var s := After(s0, es, cap);
    OverflowAccount(s0, es, cap);
    hide IsRun, After, Pending, Succeeded, Consumed;
    if Apply(s, e, cap).sh.overflow < 0 {
      PendingSome(s.slots, e.i);
    }
  }

  predicate NoOpenFails(s: State) {
    s.sh.overflow >= 0 && forall i :: 0 <= i < |s.slots| ==> !s.slots[i].OpenFailed?
  }

  lemma {:induction false} NoFailureKeeps(s: State, es: seq<Event>, cap: Cap)
    requires IsRun(s, es, cap) && NoOpenFails(s) && forall e :: e in es ==> !e.OpenErr?
    ensures NoOpenFails(After(s, es, cap))
    decreases |es|
  {
    if es != [] {
      assert es[0] in es;
      NoFailureKeeps(Apply(s, es[0], cap), es[1..], cap);
    }
  }

  /** If no open ever fails, `overflow_` is never negative, and when the last caller has
      left the counters describe the idle list exactly. */
  lemma NoFailureQuiescent(s0: State, es: seq<Event>, cap: Cap)
    requires Initial(s0) && IsRun(s0, es, cap) && forall e :: e in es ==> !e.OpenErr?
    ensures var s := After(s0, es, cap);
            s.sh.overflow >= 0 &&
            (Busy(s.slots) == 0 ==> s.sh.overflow == 0 && s.sh.live == |s.sh.idle|)
  {
    NoFailureKeeps(s0, es, cap);
    if Busy(After(s0, es, cap).slots) == 0 {
      Quiescent(After(s0, es, cap), cap);
    }
  }

  /** `overflow_` alone can dip below zero: one caller holds the only pooled connection,
      a second is opening an overflow one; the first releases, then the open fails. */
  lemma OverflowCanBeNegative() returns (s0: State, es: seq<Event>)
    ensures Initial(s0) && IsRun(s0, es, 1) && After(s0, es, 1).sh == Shared([], 1, -1)
  {
    s0 := State(FRESH_POOL, [Out, Out], 0);
    var s3 := State(Shared([], 1, 1), [Holding(0), Opening(true)], 1);
    var s1 := State(Shared([], 1, 0), [Opening(false), Out], 0);
    var s2 := State(Shared([], 1, 0), [Holding(0), Out], 1);
    var end := NegativeEnd(s3);
    assert Apply(s0, Enter(0), 1) == s1 && Apply(s1, OpenOk(0), 1) == s2 && Apply(s2, Enter(1), 1) == s3;
    var e2 := [Enter(1)] + end;
    RunOfOne(s2, Enter(1), end, 1);
    var e1 := [OpenOk(0)] + e2;
    RunOfOne(s1, OpenOk(0), e2, 1);
    RunOfOne(s0, Enter(0), e1, 1);
    es := [Enter(0)] + e1;
  }

  lemma NegativeEnd(s3: State) returns (es: seq<Event>)
    requires s3 == State(Shared([], 1, 1), [Holding(0), Opening(true)], 1)
    ensures IsRun(s3, es, 1) && After(s3, es, 1).sh == Shared([], 1, -1)
  {
    var s4 := State(Shared([], 1, 0), [Out, Opening(true)], 1);
    var s5 := State(Shared([], 1, 0), [Out, OpenFailed(true)], 1);
    var s6 := State(Shared([], 1, -1), [Out, Out], 1);
    assert Apply(s3, Release(0), 1) == s4 && Apply(s4, OpenErr(1), 1) == s5 && Apply(s5, Rollback(1), 1) == s6;
    var e6: seq<Event> := [];
    var e5 := [Rollback(1)] + e6;
    RunOfOne(s5, Rollback(1), e6, 1);
    var e4 := [OpenErr(1)] + e5;
    RunOfOne(s4, OpenErr(1), e5, 1);
    RunOfOne(s3, Release(0), e4, 1);
    es := [Release(0)] + e4;
  }

  lemma RunOfOne(s: State, e: Event, es: seq<Event>, cap: Cap)
    requires Enabled(s, e) && IsRun(Apply(s, e, cap), es, cap)
    ensures IsRun(s, [e] + es, cap) && After(s, [e] + es, cap) == After(Apply(s, e, cap), es, cap)
  {
    assert ([e] + es)[1..] == es;
  }

  // -------------------------------------------- one caller against the step system

  /** `acquire` returns the most recently returned connection that still answers, and
      uncounts exactly the dead ones above it. */
  lemma {:induction false} AcquirePicksLatestAlive(sh: Shared, cap: Cap, alive: Conn -> bool, newConn: Option<Conn>, k: nat)
    requires k < |sh.idle| && alive(sh.idle[k])
    requires forall j :: k < j < |sh.idle| ==> !alive(sh.idle[j])
    ensures AcquireAlone(sh, cap, alive, newConn)
         == (Shared(sh.idle[..k], sh.live - (|sh.idle| - 1 - k), sh.overflow), Some(sh.idle[k]))
    decreases |sh.idle|
  {
    var n := |sh.idle| - 1;
    if k < n {
      var sh1 := sh.(idle := sh.idle[..n], live := sh.live - 1);
      AcquirePicksLatestAlive(sh1, cap, alive, newConn, k);
      assert sh1.idle[..k] == sh.idle[..k];
    }
  }

  /** With no idle connection answering, every one is uncounted and a new one is opened:
      as an overflow connection exactly if the pool is still full without them. */
  lemma {:induction false} AcquireOpensWhenAllDead(sh: Shared, cap: Cap, alive: Conn -> bool, newConn: Option<Conn>)
    requires forall j :: 0 <= j < |sh.idle| ==> !alive(sh.idle[j])
    ensures var (sh1, got) := AcquireAlone(sh, cap, alive, newConn);
            var left := sh.live - |sh.idle|;
            var gain := if newConn.Some? then 1 else 0;
            got == newConn && sh1 == if left >= cap then Shared([], left, sh.overflow + gain)
                                     else Shared([], left + gain, sh.overflow)
    decreases |sh.idle|
  {
    if sh.idle != [] {
      AcquireOpensWhenAllDead(sh.(idle := sh.idle[..|sh.idle| - 1], live := sh.live - 1), cap, alive, newConn);
    }
  }

  function PcHolding(c: Option<Conn>): Pc { if c.Some? then Holding(c.value) else Out }

  /** The undisturbed call is one of the interleavings: a run that moves only slot `i`. */
  lemma AcquireAloneIsARun(s: State, i: nat, cap: Cap, alive: Conn -> bool, opens: bool) returns (es: seq<Event>)
    requires i < |s.slots| && s.slots[i].Out?
    ensures forall e :: e in es ==> e.i == i
    ensures var (sh1, got) := AcquireAlone(s.sh, cap, alive, if opens then Some(s.next) else None);
            IsRun(s, es, cap) && After(s, es, cap).sh == sh1 && After(s, es, cap).slots == s.slots[i := PcHolding(got)]
  {
    var s1 := Apply(s, Enter(i), cap);
    var rest := FinishAcquire(s1, i, cap, alive, opens, s);
    RunOfOne(s, Enter(i), rest, cap);
    es := [Enter(i)] + rest;
  }

  lemma {:induction false} FinishAcquire(s1: State, i: nat, cap: Cap, alive: Conn -> bool, opens: bool, s: State)
      returns (es: seq<Event>)
    requires i < |s.slots| && s1.next == s.next
    requires s1.sh == Reserve(s.sh, cap).0 && s1.slots == s.slots[i := PcOf(Reserve(s.sh, cap).1)]
    ensures forall e :: e in es ==> e.i == i
    ensures var (sh1, got) := AcquireAlone(s.sh, cap, alive, if opens then Some(s.next) else None);
            IsRun(s1, es, cap) && After(s1, es, cap).sh == sh1 && After(s1, es, cap).slots == s.slots[i := PcHolding(got)]
    decreases |s.sh.idle|
  {
    if s.sh.idle == [] {
      es := FinishOpen(s1, i, cap, alive, opens, s);
    } else if alive(s.sh.idle[|s.sh.idle| - 1]) {
      RunOfOne(s1, PingOk(i), [], cap);
      es := [PingOk(i)] + [];
    } else {
      var s2 := Apply(s1, PingDead(i), cap);
      var again := s2.(sh := s2.sh.(live := s2.sh.live - 1));
      var rest := FinishAcquire(Apply(s2, Relock(i), cap), i, cap, alive, opens, again);
      RunOfOne(s2, Relock(i), rest, cap);
      var tail := [Relock(i)] + rest;
      RunOfOne(s1, PingDead(i), tail, cap);
      es := [PingDead(i)] + tail;
    }
  }

  lemma FinishOpen(s1: State, i: nat, cap: Cap, alive: Conn -> bool, opens: bool, s: State) returns (es: seq<Event>)
    requires i < |s.slots| && s1.next == s.next && s.sh.idle == []
    requires s1.sh == Reserve(s.sh, cap).0 && s1.slots == s.slots[i := PcOf(Reserve(s.sh, cap).1)]
    ensures forall e :: e in es ==> e.i == i
    ensures var (sh1, got) := AcquireAlone(s.sh, cap, alive, if opens then Some(s.next) else None);
            IsRun(s1, es, cap) && After(s1, es, cap).sh == sh1 && After(s1, es, cap).slots == s.slots[i := PcHolding(got)]
  {
    if opens {
      RunOfOne(s1, OpenOk(i), [], cap);
      es := [OpenOk(i)] + [];
    } else {
      var s2 := Apply(s1, OpenErr(i), cap);
      RunOfOne(s2, Rollback(i), [], cap);
      var tail := [Rollback(i)] + [];
      RunOfOne(s1, OpenErr(i), tail, cap);
      es := [OpenErr(i)] + tail;
    }
  }
}
