/** The wire format of nl-common/src/redis.cpp: the RESP2 printer `encode_array` and the
    parser `recv_line` / `read_reply`, sections "Bulk strings" and "Arrays" of the Redis
    serialization protocol specification. */
module Resp {
  import opened Wrappers
  import opened Text

  const CRLF := "\r\n"
  const LINE_LIMIT := 16 * 1024 * 1024

  // ------------------------------------------------------------------------ the parser

  /** `Reply`, once it has been read. */
  datatype Reply = Reply(isNull: bool, isStatusOk: bool, num: int, bulk: string, elems: seq<string>)

  const BLANK := Reply(false, false, 0, "", [])

  /** `Threw`: `std::stoi` or `std::stoll` on a malformed or oversized number, after its line
      has been consumed. */
  datatype Reading = Read(reply: Reply, rest: string) | Failed | Threw(rest: string)

  /** A line ends at the first '\r', which must be followed by '\n'. */
  function LineIn(s: string): (r: Option<(string, string)>)
    ensures r.Some? ==> |r.value.1| < |s|
  {
    var n := Find(s, '\r');
    if n <= LINE_LIMIT && n + 1 < |s| && s[n + 1] == '\n' then Some((s[..n], s[n + 2..])) else None
  }

  /** `std::stoll`. */
  function StoLL(s: string): Option<int> {
    var (v, _) :- ScanInt(s);
    if -0x8000_0000_0000_0000 <= v < 0x8000_0000_0000_0000 then Some(v) else None
  }

  function BulkIn(s: string, len: int): (r: Reading)
    ensures !r.Threw?
  {
    if len < 0 then Read(BLANK.(isNull := true), s)
    else if |s| < len + 2 || s[len..len + 2] != CRLF then Failed
    else Read(BLANK.(bulk := s[..len]), s[len + 2..])
  }

  /** Null elements and empty strings are dropped from an array. */
  function Kept(one: Reply): seq<string> { if !one.isNull && one.bulk != "" then [one.bulk] else [] }

  function ReplyIn(s: string): (r: Reading)
    ensures r.Read? ==> |r.rest| < |s|
    decreases |s|, 0
  {
    match LineIn(s)
    case None => Failed
    case Some((line, rest)) =>
      if line == "" then Failed
      else if line[0] == '+' then Read(BLANK.(isStatusOk := line[1..] == "OK"), rest)
      else if line[0] == ':' then
        (match StoLL(line[1..]) case None => Threw(rest) case Some(n) => Read(BLANK.(num := n), rest))
      else if line[0] == '$' then
        (match StoI(line[1..]) case None => Threw(rest) case Some(len) => BulkIn(rest, len))
      else if line[0] == '*' then
        (match StoI(line[1..])
         case None => Threw(rest)
         case Some(n) => if n < 0 then Read(BLANK.(isNull := true), rest) else ElemsIn(rest, n, []))
      else Failed
  }

  function ElemsIn(s: string, n: nat, got: seq<string>): (r: Reading)
    ensures r.Read? ==> |r.rest| <= |s|
    decreases |s|, 1
  {
    if n == 0 then Read(BLANK.(elems := got), s)
    else
      match ReplyIn(s)
      case Read(one, rest) => ElemsIn(rest, n - 1, got + Kept(one))
      case Failed => Failed
      case Threw(rest) => Threw(rest)
  }

  // ---------------------------------------------------------------------- the socket

  datatype Answer = Ok(reply: Reply) | Fail | Throw

  function AnswerOf(r: Reading): Answer {
    match r case Read(reply, _) => Ok(reply) case Failed => Fail case Threw(_) => Throw
  }

  /** A connected socket: the bytes still to come before the peer closes. */
  class Socket {
    var data: string

    constructor (data: string)
      ensures this.data == data
    {
      this.data := data;
    }

    /** `recv_n`; a short read fails. */
    method RecvN(n: nat) returns (ok: bool, buf: string)
      modifies this
      ensures ok <==> n <= |old(data)|
      ensures ok ==> buf == old(data)[..n] && data == old(data)[n..]
    {
      if n <= |data| {
        buf := data[..n];
        data := data[n..];
        return true, buf;
      }
      data := "";
      return false, "";
    }

    method RecvLine() returns (ok: bool, line: string)
      modifies this
      ensures ok <==> LineIn(old(data)).Some?
      ensures ok ==> LineIn(old(data)) == Some((line, data))
    {
      hide LineIn;
      line := "";
      ghost var all := data;
      while true
        invariant |line| <= LINE_LIMIT
        invariant all == line + data && '\r' !in line
        decreases |data|
      {
        ghost var left := data;
        LineFrom(line, left);
        var got, ch := RecvN(1);
        if !got {
          return false, line;
        }
        if ch == "\r" {
          var more, next := RecvN(1);
          if !more || next != "\n" {
            return false, line;
          }
          return true, line;
        }
        OneMore(line, left);
        line := line + ch;
        if |line| > 16 * 1024 * 1024 {
          LineTooLong(line, data);
          return false, line;
        }
      }
    }

    /** `read_reply`, which fills in its result step by step. */
    method ReadReply() returns (answer: Answer)
      modifies this
      ensures answer == AnswerOf(ReplyIn(old(data)))
      ensures !answer.Fail? ==> data == ReplyIn(old(data)).rest
      decreases |data|
    {
      hide LineIn, StoI, StoLL, BulkIn;
      ghost var all := data;
      var ok, line := RecvLine();
      if !ok || line == "" {
        return Fail;
      }
      ghost var after := data;
      var out := Reply(false, false, 0, "", []);
      var kind, rest := line[0], line[1..];
      if kind == '+' {
        return Ok(out.(isStatusOk := rest == "OK"));
      }
      if kind == '-' {
        return Fail;
      }
      if kind == ':' {
        var num := StoLL(rest);
        return if num.None? then Throw else Ok(out.(num := num.value));
      }
      if kind == '$' {
        var len := StoI(rest);
        if len.None? {
          return Throw;
        }
        answer := ReadBulk(len.value);
        return;
      }
      if kind == '*' {
        var n := StoI(rest);
        if n.None? {
          return Throw;
        }
        if n.value < 0 {
          return Ok(out.(isNull := true));
        }
        var elems := [];
        for i := 0 to n.value
          invariant |data| <= |after| < |all|
          invariant ElemsIn(data, n.value - i, elems) == ElemsIn(after, n.value, [])
        {
          var one := ReadReply();
          if !one.Ok? {
            return one;
          }
          if !one.reply.isNull && one.reply.bulk != "" {
            elems := elems + [one.reply.bulk];
          } else {
            assert elems + [] == elems;
          }
        }
        return Ok(out.(elems := elems));
      }
      return Fail;
    }

    method ReadBulk(len: int) returns (answer: Answer)
      modifies this
      ensures answer == AnswerOf(BulkIn(old(data), len))
      ensures BulkIn(old(data), len).Read? ==> data == BulkIn(old(data), len).rest
    {
      if len < 0 {
        return Ok(Reply(true, false, 0, "", []));
      }
      ghost var all := data;
      var ok, body := RecvN(len);
      if !ok {
        return Fail;
      }
      var more, crlf := RecvN(2);
      assert more ==> crlf == all[len..len + 2] && data == all[len + 2..];
      if !more || crlf != "\r\n" {
        return Fail;
      }
      return Ok(Reply(false, false, 0, body, []));
    }
  }

  lemma FindAtLeast(a: string, b: string, c: char)
    requires c !in a
    ensures Find(a + b, c) >= |a|
  {
    var s, n := a + b, Find(a + b, c);
    assert forall i :: 0 <= i < |a| ==> s[i] == a[i] && a[i] in a;
  }

  lemma OneMore(line: string, left: string)
    requires left != ""
    ensures line + left == line + left[..1] + left[1..]
  {
  }

  lemma LineTooLong(line: string, left: string)
    requires '\r' !in line && |line| > LINE_LIMIT
    ensures LineIn(line + left).None?
  {
    FindAtLeast(line, left, '\r');
  }

  /** What the loop may conclude from the next bytes. */
  lemma LineFrom(line: string, left: string)
    requires '\r' !in line && |line| <= LINE_LIMIT
    ensures left == "" ==> LineIn(line + left).None?
    ensures left != "" && left[0] == '\r' ==>
              LineIn(line + left) == if |left| >= 2 && left[1] == '\n' then Some((line, left[2..])) else None
  {
    var s := line + left;
    if left == "" {
      FindAtLeast(line, left, '\r');
    } else if left[0] == '\r' {
      FindIs(line, '\r', left[1..]);
      assert s == line + ['\r'] + left[1..];
      assert s[..|line|] == line;
      assert |left| >= 2 ==> s[|line| + 1] == left[1] && s[|line| + 2..] == left[2..];
    }
  }
}
