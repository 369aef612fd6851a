/** The Redis connection of nl-common/src/redis.cpp: `ensure_backend`, `exec`, and what
    holds along every sequence of calls. */
module RedisConn {
  import opened Wrappers
  import opened Resp
  import opened RespLaws

  const COOLDOWN := 5000

  // -------------------------------------------------------------------------- the state

  /** `g_use_redis` with `g_sock`, the bytes received but not read, `g_retry_at`, and when
      connecting was tried. */
  datatype Client = Client(up: bool, unread: string, retryAt: int, attempts: seq<int>)

  /** One call under the mutex: when it is made, whether connecting and sending succeed,
      what the peer sends before it closes or waits for the next command, and when a failure
      is noticed. */
  datatype Op
    = Using(now: int, connects: bool)
    | Exec(now: int, connects: bool, args: seq<string>, sends: bool, incoming: string, later: int)

  function Ensure(c: Client, now: int, connects: bool): Client {
    if c.up || now < c.retryAt then c
    else if connects then Client(true, "", c.retryAt, c.attempts + [now])
    else Client(false, "", now + COOLDOWN, c.attempts + [now])
  }

  function Down(c: Client, later: int): Client { Client(false, "", later + COOLDOWN, c.attempts) }

  /** Sending the command and reading its reply; an exception from a malformed number leaves
      the connection in use, with what follows its line unread. */
  function Exchange(c: Client, sends: bool, incoming: string, later: int): (Client, Answer) {
    if !sends then (Down(c, later), Fail)
    else
      match ReplyIn(c.unread + incoming)
      case Read(reply, rest) => (c.(unread := rest), Ok(reply))
      case Failed => (Down(c, later), Fail)
      case Threw(rest) => (c.(unread := rest), Throw)
  }

  function Do(c: Client, op: Op): (Client, Answer) {
    var k := Ensure(c, op.now, op.connects);
    if op.Using? then (k, if k.up then Ok(BLANK) else Fail)
    else if !k.up then (k, Fail)
    else Exchange(k, op.sends, op.incoming, op.later)
  }

  // ----------------------------------------------------------------------- the methods

  class Redis {
    var useRedis: bool
    var sock: Socket?
    var retryAt: int
    ghost var attempts: seq<int>

    ghost predicate Valid()
      reads this
    {
      useRedis <==> sock != null
    }

    ghost function View(): Client
      reads this, sock
      requires Valid()
    {
      Client(useRedis, if sock == null then "" else sock.data, retryAt, attempts)
    }

    constructor ()
      ensures Valid() && View() == Client(false, "", 0, [])
    {
      useRedis, sock, retryAt, attempts := false, null, 0, [];
    }

    method CloseSock()
      modifies this`sock
      ensures sock == null
    {
      sock := null;
    }

    method EnsureBackend(now: int, connects: bool)
      requires Valid()
      modifies this
      ensures Valid() && View() == Ensure(old(View()), now, connects)
      ensures sock == old(sock) || fresh(sock)
    {
      if useRedis {
        return;
      }
      if now < retryAt {
        return;
      }
      attempts := attempts + [now];
      if connects {
        sock := new Socket("");
        useRedis := true;
        return;
      }
      useRedis := false;
      retryAt := now + 5000;
    }

    /** The bytes arrive while the reply is being read. */
    method Exec(now: int, connects: bool, args: seq<string>, sends: bool, incoming: string, later: int)
      returns (answer: Answer, sent: string)
      requires Valid()
      modifies this, sock
      ensures Valid()
      ensures sent == if Ensure(old(View()), now, connects).up then Print(Array(Bulks(args))) else ""
      ensures (View(), answer) == Do(old(View()), Op.Exec(now, connects, args, sends, incoming, later))
    {
      hide ReplyIn, Print;
      EnsureBackend(now, connects);
      if !useRedis || sock == null {
        return Fail, "";
      }
      sent := EncodeArray(args);
      if !sends {
        useRedis := false;
        CloseSock();
        retryAt := later + 5000;
        return Fail, sent;
      }
      sock.data := sock.data + incoming;
      answer := sock.ReadReply();
      if answer.Fail? {
        useRedis := false;
        CloseSock();
        retryAt := later + 5000;
      }
    }

    /** `redis_using`. */
    method RedisUsing(now: int, connects: bool) returns (up: bool)
      requires Valid()
      modifies this
      ensures Valid() && View() == Do(old(View()), Using(now, connects)).0
      ensures up == View().up && Do(old(View()), Using(now, connects)).1 == if up then Ok(BLANK) else Fail
    {
      EnsureBackend(now, connects);
      return useRedis;
    }
  }

  // ------------------------------------------------------------------------ all runs

  function DoAll(c: Client, ops: seq<Op>): Client
    decreases |ops|
  {
    if ops == [] then c else DoAll(Do(c, ops[0]).0, ops[1..])
  }

  // ------------------------------------------------------------- replies and commands

  /** Between calls, a connection in use has nothing left to read. */
  predicate Synced(c: Client) { c.up ==> c.unread == "" }

  /** The peer answers a command with one value, or with as much of it as it gets out
      before closing. */
  predicate Answers(op: Op, v: Value) { op.Exec? ==> Printable(v) && op.incoming <= Print(v) }

  /** The call that reaches the peer and gets the whole of an answer without errors. */
  predicate Succeeds(c: Client, op: Op, v: Value) {
    Ensure(c, op.now, op.connects).up && op.Exec? && op.sends && op.incoming == Print(v) && Meaning(v).Some?
  }

  /** A cut answer is noticed, whatever it means. */
  lemma CutFails(v: Value, incoming: string)
    requires Printable(v) && incoming <= Print(v) && incoming != Print(v)
    ensures ReplyIn(incoming) == Failed
  {
    hide ReplyIn, Print, Meaning;
    PrintedIsWhole(v);
    if Meaning(v).Some? {
      CutReplyFails(Print(v), |incoming|);
      assert incoming == Print(v)[..|incoming|];
    } else if ReplyIn(incoming) != Failed {
      assert incoming + Print(v)[|incoming|..] == Print(v);
      Decided(incoming, Print(v)[|incoming|..]);
    }
  }

  /** What an exchange on a fresh or synchronised connection gives. */
  lemma ExchangeAnswers(c: Client, sends: bool, incoming: string, later: int, v: Value)
    requires c.up && c.unread == "" && Printable(v) && incoming <= Print(v)
    ensures var (r, answer) := Exchange(c, sends, incoming, later);
            Synced(r) && answer == (if sends && incoming == Print(v) && Meaning(v).Some? then Ok(Meaning(v).value) else Fail)
  {
    hide ReplyIn, Print, Meaning;
    assert "" + incoming == incoming;
    if incoming == Print(v) {
      PrintReads(v, "");
      assert Print(v) + "" == Print(v);
    } else {
      CutFails(v, incoming);
    }
  }

  /** A call succeeds exactly if the peer's whole answer to it arrived, it returns what that
      answer means, nothing is left to read, and no number is malformed. */
  lemma CallAnswers(c: Client, op: Op, v: Value)
    requires Synced(c) && Answers(op, v)
    ensures Synced(Do(c, op).0)
    ensures op.Exec? ==> Do(c, op).1 == if Succeeds(c, op, v) then Ok(Meaning(v).value) else Fail
  {
    hide Exchange, Print, Meaning, Printable;
    var k := Ensure(c, op.now, op.connects);
    if op.Exec? && k.up {
      ExchangeAnswers(k, op.sends, op.incoming, op.later, v);
    }
  }

  /** However much of an answer the peer gets out: the call succeeds with the whole of it. */
  lemma AnswerCutAt(c: Client, now: int, args: seq<string>, v: Value, n: nat, later: int)
    requires Synced(c) && c.up && Printable(v) && n <= |Print(v)|
    ensures var op := Op.Exec(now, true, args, true, Print(v)[..n], later);
            Answers(op, v) &&
            Do(c, op).1 == if n == |Print(v)| && Meaning(v).Some? then Ok(Meaning(v).value) else Fail
  {
    hide Do, Print, Meaning, Printable;
    var op := Op.Exec(now, true, args, true, Print(v)[..n], later);
    assert Print(v)[..n] == Print(v) <==> n == |Print(v)|;
    CallAnswers(c, op, v);
  }

  /** Request and reply stay in step: along every sequence of calls, the answer of each is
      what the peer said to that very call. */
  lemma {:induction false} RepliesMatch(c: Client, ops: seq<Op>, vs: seq<Value>, i: nat)
    requires Synced(c) && |vs| == |ops| && i < |ops| && ops[i].Exec?
    requires forall j :: 0 <= j < |ops| ==> Answers(ops[j], vs[j])
    ensures var before := DoAll(c, ops[..i]);
            Synced(before) &&
            Do(before, ops[i]).1 == if Succeeds(before, ops[i], vs[i]) then Ok(Meaning(vs[i]).value) else Fail
    decreases |ops|
  {
    hide Do, Succeeds, Answers, Meaning;
    if i == 0 {
      assert ops[..0] == [];
      CallAnswers(c, ops[0], vs[0]);
    } else {
      CallAnswers(c, ops[0], vs[0]);
      RepliesMatch(Do(c, ops[0]).0, ops[1..], vs[1..], i - 1);
      assert ops[..i][1..] == ops[1..][..i - 1];
    }
  }

  // ----------------------------------------------------------------- reconnecting

  /** The clock never goes back, within a call or between calls. */
  predicate Timely(t: int, ops: seq<Op>)
    decreases |ops|
  {
    ops == [] || (t <= ops[0].now && (ops[0].Exec? ==> ops[0].now <= ops[0].later) &&
      Timely(if ops[0].Exec? then ops[0].later else ops[0].now, ops[1..]))
  }

  ghost predicate Spaced(ts: seq<int>) { forall i :: 0 < i < |ts| ==> ts[i] - ts[i - 1] >= COOLDOWN }

  /** The next attempt is a cooldown away once this connection fails. */
  ghost predicate Cooled(c: Client, t: int) {
    Spaced(c.attempts) &&
    (c.attempts != [] ==>
       var last := c.attempts[|c.attempts| - 1]; last <= t && (!c.up ==> c.retryAt >= last + COOLDOWN))
  }

  lemma EnsureCools(c: Client, now: int, connects: bool, t: int)
    requires Cooled(c, t) && t <= now
    ensures Cooled(Ensure(c, now, connects), now)
  {
  }

  lemma ExchangeCools(c: Client, sends: bool, incoming: string, now: int, later: int)
    requires Cooled(c, now) && now <= later
    ensures Cooled(Exchange(c, sends, incoming, later).0, later)
  {
    hide ReplyIn, Spaced;
  }

  lemma CallCools(c: Client, op: Op, t: int)
    requires Cooled(c, t) && t <= op.now && (op.Exec? ==> op.now <= op.later)
    ensures Cooled(Do(c, op).0, if op.Exec? then op.later else op.now)
  {
    hide Ensure, Exchange, Spaced;
    EnsureCools(c, op.now, op.connects, t);
    var k := Ensure(c, op.now, op.connects);
    if op.Exec? && k.up {
      ExchangeCools(k, op.sends, op.incoming, op.now, op.later);
    }
  }

  lemma {:induction false} RunCools(c: Client, ops: seq<Op>, t: int)
    requires Cooled(c, t) && Timely(t, ops)
    ensures Spaced(DoAll(c, ops).attempts)
    decreases |ops|
  {
    hide Do, Cooled, Spaced;
    if ops == [] {
      CooledSpaced(c, t);
    } else {
      CallCools(c, ops[0], t);
      RunCools(Do(c, ops[0]).0, ops[1..], if ops[0].Exec? then ops[0].later else ops[0].now);
    }
  }

  lemma CooledSpaced(c: Client, t: int)
    requires Cooled(c, t)
    ensures Spaced(c.attempts)
  {
  }

  /** Attempts from `a` to `b`, both included. */
  function Within(ts: seq<int>, a: int, b: int): nat {
    if ts == [] then 0
    else Within(ts[..|ts| - 1], a, b) + if a <= ts[|ts| - 1] <= b then 1 else 0
  }

  lemma {:induction false} EarlierWithin(ts: seq<int>, a: int, b: int, c: int)
    requires forall i :: 0 <= i < |ts| ==> ts[i] <= c
    ensures c <= b ==> Within(ts, a, b) == Within(ts, a, c)
    ensures c < a ==> Within(ts, a, b) == 0
  {
    if ts != [] {
      EarlierWithin(ts[..|ts| - 1], a, b, c);
    }
  }

  lemma {:induction false} SpacedBelow(ts: seq<int>, i: nat)
    requires Spaced(ts) && i + 1 < |ts|
    ensures ts[i] <= ts[|ts| - 1] - COOLDOWN
    decreases |ts| - i
  {
    if i + 2 < |ts| {
      SpacedBelow(ts, i + 1);
    }
    assert ts[i + 1] - ts[i] >= COOLDOWN;
  }

  lemma {:induction false} FewInWindow(ts: seq<int>, a: int, w: nat)
    requires Spaced(ts)
    ensures Within(ts, a, a + w) <= w / COOLDOWN + 1
    decreases |ts|
  {
    if ts != [] {
      var n := |ts| - 1;
      var init, last := ts[..n], ts[n];
      forall i | 0 <= i < n ensures init[i] <= last - COOLDOWN {
        SpacedBelow(ts, i);
      }
      assert Spaced(init) by { assert forall i :: 0 < i < n ==> ts[i] - ts[i - 1] >= COOLDOWN; }
      if a <= last <= a + w {
        EarlierWithin(init, a, a + w, last - COOLDOWN);
        if last - COOLDOWN >= a {
          FewInWindow(init, a, last - COOLDOWN - a);
          assert (last - COOLDOWN - a) / COOLDOWN + 1 <= w / COOLDOWN;
        }
      } else {
        FewInWindow(init, a, w);
      }
    }
  }

  /** Reconnect rate: whatever mix of failures and successes occurs, connects are tried at
      least five seconds apart, so few fit in any window. */
  lemma ReconnectRate(ops: seq<Op>, a: int, w: nat)
    requires Timely(0, ops)
    ensures var ts := DoAll(Client(false, "", 0, []), ops).attempts;
            (forall i :: 0 < i < |ts| ==> ts[i] - ts[i - 1] >= 5000) && Within(ts, a, a + w) <= w / 5000 + 1
  {
    hide DoAll, Within;
    var c := Client(false, "", 0, []);
    RunCools(c, ops, 0);
    FewInWindow(DoAll(c, ops).attempts, a, w);
  }

  /** `redis_using` every five seconds while Redis is away. */
  function Polls(n: nat): seq<Op> { seq(n, i => Using(5000 * i, false)) }

  function Multiples(n: nat): seq<int> { seq(n, i => 5000 * i) }

  lemma {:induction false} PollsTry(n: nat)
    ensures DoAll(Client(false, "", 0, []), Polls(n)) == Client(false, "", 5000 * n, Multiples(n))
  {
    if n > 0 {
      PollsTry(n - 1);
      assert Polls(n) == Polls(n - 1) + [Using(5000 * (n - 1), false)];
      DoOneMore(Client(false, "", 0, []), Polls(n - 1), Using(5000 * (n - 1), false));
      assert Multiples(n) == Multiples(n - 1) + [5000 * (n - 1)];
    }
  }

  lemma {:induction false} DoOneMore(c: Client, ops: seq<Op>, last: Op)
    ensures DoAll(c, ops + [last]) == Do(DoAll(c, ops), last).0
    decreases |ops|
  {
    hide Do;
    if ops == [] {
      assert ops + [last] == [last] && [last][1..] == [];
    } else {
      DoOneMore(Do(c, ops[0]).0, ops[1..], last);
      assert (ops + [last])[1..] == ops[1..] + [last];
    }
  }

  lemma {:induction false} PollsTimely(k: nat, n: nat, t: int)
    requires k <= n && t <= 5000 * k
    ensures Timely(t, Polls(n)[k..])
    decreases n - k
  {
    if k < n {
      PollsTimely(k + 1, n, 5000 * k);
      assert Polls(n)[k..][1..] == Polls(n)[k + 1..];
    }
  }

  lemma {:induction false} MultiplesWithin(n: nat, w: nat)
    requires n <= w / 5000 + 1
    ensures Within(Multiples(n), 0, w) == n
  {
    if n > 0 {
      MultiplesWithin(n - 1, w);
      assert Multiples(n)[..n - 1] == Multiples(n - 1);
    }
  }

  /** The bound is attained: there is no better one. */
  lemma RateIsAttained(w: nat) returns (ops: seq<Op>)
    ensures Timely(0, ops) && Within(DoAll(Client(false, "", 0, []), ops).attempts, 0, w) == w / 5000 + 1
  {
    hide DoAll, Within, Timely;
    var n := w / 5000 + 1;
    ops := Polls(n);
    PollsTry(n);
    PollsTimely(0, n, 0);
    assert Polls(n)[0..] == Polls(n);
    MultiplesWithin(n, w);
  }
}
