/** Output comparison of nl-judge/src/sandbox.cpp: `rtrim_copy` and the normaliser
    inside `judge_outputs_match`. */
module OutputMatch {
  import opened Sequences
  import opened Text

  // ------------------------------------------------------------------ the definition

  function DropCr(s: string): string {
    if s == [] then [] else if s[0] == '\r' then DropCr(s[1..]) else [s[0]] + DropCr(s[1..])
  }

  predicate IsBlank(c: char) { c == ' ' || c == '\t' || c == '\r' }

  function RTrim(s: string): string {
    if s != [] && IsBlank(s[|s| - 1]) then RTrim(s[..|s| - 1]) else s
  }

  function RTrimAll(ls: seq<string>): (r: seq<string>)
    ensures |r| == |ls| && forall i :: 0 <= i < |ls| ==> r[i] == RTrim(ls[i])
  {
    seq(|ls|, i requires 0 <= i < |ls| => RTrim(ls[i]))
  }

  function DropEmptyTail(ls: seq<string>): seq<string> {
    if ls != [] && ls[|ls| - 1] == [] then DropEmptyTail(ls[..|ls| - 1]) else ls
  }

  /** What a judge compares: the lines without carriage returns, right-trimmed, up to
      the last one that is not empty. */
  function Canonical(s: string): seq<string> {
    DropEmptyTail(RTrimAll(Lines(DropCr(s))))
  }

  /** The text such a list of lines stands for, without a final newline. */
  function Join(ls: seq<string>): string {
    if ls == [] then "" else Unlines(ls[..|ls| - 1]) + ls[|ls| - 1]
  }

  // ------------------------------------------------------------------------ the code

  method RTrimCopy(s: string) returns (r: string)
    ensures r == RTrim(s)
  {
    r := s;
    while r != [] && (r[|r| - 1] == ' ' || r[|r| - 1] == '\t' || r[|r| - 1] == '\r')
      invariant RTrim(r) == RTrim(s)
      decreases |r|
    {
      r := r[..|r| - 1];
    }
  }

  method RemoveReturns(s: string) returns (t: string)
    ensures t == DropCr(s)
  {
    t := "";
    for i := 0 to |s|
      invariant t + DropCr(s[i..]) == DropCr(s)
    {
      assert s[i..][1..] == s[i + 1..];
      if s[i] == '\r' {
        continue;
      }
      t := t + [s[i]];
    }
    assert s[|s|..] == [];
  }

  lemma TrimStep(s: string, n: nat, rest: string)
    requires s != [] && n == Find(s, '\n')
    requires rest == if n < |s| then s[n + 1..] else []
    ensures RTrimAll(Lines(s)) == [RTrim(s[..n])] + RTrimAll(Lines(rest))
  {
    LinesStep(s, n, rest);
    RTrimAllCons(s[..n], Lines(rest));
  }

  method TrimLines(t: string) returns (out: string)
    ensures out == Unlines(RTrimAll(Lines(t)))
  {
    out := [];
    var rest := t;
    ghost var done: seq<string> := [];
    while rest != []
      invariant out == Unlines(done)
      invariant done + RTrimAll(Lines(rest)) == RTrimAll(Lines(t))
      decreases |rest|
    {
      ghost var before := rest;
      var n := Find(rest, '\n');
      var line := RTrimCopy(rest[..n]);
      rest := if n < |rest| then rest[n + 1..] else [];
      out := out + line + "\n";
      assert done + RTrimAll(Lines(before)) == done + [line] + RTrimAll(Lines(rest)) by {
        TrimStep(before, n, rest);
        MoveOne(done, line, RTrimAll(Lines(rest)));
      }
      assert out == Unlines(done + [line]) by { UnlinesSnoc(done, line); }
      done := done + [line];
    }
    assert done + [] == done;
  }

  method Normalize(s: string) returns (out: string)
    ensures out == Join(Canonical(s))
  {
    var t := RemoveReturns(s);
    out := TrimLines(t);
    ghost var text := out;
    LinesNewlinefree(t);
    RTrimAllNewlinefree(Lines(t));
    StripGivesJoin(RTrimAll(Lines(t)));
    while out != [] && out[|out| - 1] == '\n'
      invariant StripNewlines(out) == StripNewlines(text)
      decreases |out|
    {
      out := out[..|out| - 1];
    }
  }

  method JudgeOutputsMatch(expected: string, actual: string) returns (ok: bool)
    ensures ok <==> Canonical(expected) == Canonical(actual)
    ensures Plain(expected) && Plain(actual) ==> (ok <==> expected == actual)
  {
    var e := Normalize(expected);
    var a := Normalize(actual);
    JoinInjective(expected, actual);
    if Plain(expected) && Plain(actual) {
      SeesTheRest(expected, actual);
    }
    ok := e == a;
  }

  // -------------------------------------------------------------------------- proofs

  function StripNewlines(s: string): string {
    if s != [] && s[|s| - 1] == '\n' then StripNewlines(s[..|s| - 1]) else s
  }

  lemma {:induction false} RTrimPrefix(s: string)
    ensures RTrim(s) <= s && RTrim(RTrim(s)) == RTrim(s)
  {
    if s != [] && IsBlank(s[|s| - 1]) {
      RTrimPrefix(s[..|s| - 1]);
    }
  }

  lemma RTrimAllNewlinefree(ls: seq<string>)
    requires Newlinefree(ls)
    ensures Newlinefree(RTrimAll(ls))
  {
    forall i | 0 <= i < |ls| ensures '\n' !in RTrimAll(ls)[i] {
      RTrimPrefix(ls[i]);
    }
  }

  lemma {:induction false} StripGivesJoin(ls: seq<string>)
    requires Newlinefree(ls)
    ensures StripNewlines(Unlines(ls)) == Join(DropEmptyTail(ls))
    decreases |ls|
  {
    if ls != [] {
      var n := |ls| - 1;
      var init, last := ls[..n], ls[n];
      UnlinesSnoc(init, last);
      assert init + [last] == ls;
      var u := Unlines(init) + last;
      assert Unlines(ls)[..|u|] == u;
      if last == [] {
        assert u == Unlines(init);
        StripGivesJoin(init);
      } else {
        assert u[|u| - 1] == last[|last| - 1];
      }
    }
  }

  predicate Settled(ls: seq<string>) {
    && (ls != [] ==> ls[|ls| - 1] != [])
    && Newlinefree(ls)
    && (forall i :: 0 <= i < |ls| ==> RTrim(ls[i]) == ls[i] && '\r' !in ls[i])
  }

  lemma {:induction false} DropEmptyTailSettles(ls: seq<string>)
    requires Newlinefree(ls) && forall i :: 0 <= i < |ls| ==> RTrim(ls[i]) == ls[i] && '\r' !in ls[i]
    ensures Settled(DropEmptyTail(ls))
    decreases |ls|
  {
    if ls != [] && ls[|ls| - 1] == [] {
      DropEmptyTailSettles(ls[..|ls| - 1]);
    }
  }

  lemma {:induction false} NoCr(s: string)
    ensures '\r' !in DropCr(s)
  {
    if s != [] {
      NoCr(s[1..]);
    }
  }

  lemma {:induction false} LinesNoCr(s: string)
    requires '\r' !in s
    ensures forall i :: 0 <= i < |Lines(s)| ==> '\r' !in Lines(s)[i]
    decreases |s|
  {
    if s != [] && Find(s, '\n') < |s| {
      LinesNoCr(s[Find(s, '\n') + 1..]);
    }
  }

  lemma RTrimAllTrimmed(ls: seq<string>)
    requires forall i :: 0 <= i < |ls| ==> '\r' !in ls[i]
    ensures forall i :: 0 <= i < |RTrimAll(ls)| ==>
              RTrim(RTrimAll(ls)[i]) == RTrimAll(ls)[i] && '\r' !in RTrimAll(ls)[i]
  {
    forall i | 0 <= i < |ls| ensures RTrim(RTrim(ls[i])) == RTrim(ls[i]) && '\r' !in RTrim(ls[i]) {
      RTrimPrefix(ls[i]);
    }
  }

  lemma CanonicalSettled(s: string)
    ensures Settled(Canonical(s))
  {
    NoCr(s);
    LinesNoCr(DropCr(s));
    LinesNewlinefree(DropCr(s));
    RTrimAllTrimmed(Lines(DropCr(s)));
    RTrimAllNewlinefree(Lines(DropCr(s)));
    DropEmptyTailSettles(RTrimAll(Lines(DropCr(s))));
  }

  lemma LinesOfJoin(ls: seq<string>)
    requires Settled(ls)
    ensures Lines(Join(ls)) == ls
  {
    if ls != [] {
      var n := |ls| - 1;
      LinesOfUnlines(ls[..n], ls[n]);
      assert ls[..n] + [ls[n]] == ls;
    }
  }

  /** The normal form loses nothing that the comparison should see. */
  lemma JoinInjective(a: string, b: string)
    ensures Join(Canonical(a)) == Join(Canonical(b)) <==> Canonical(a) == Canonical(b)
  {
    CanonicalSettled(a);
    CanonicalSettled(b);
    LinesOfJoin(Canonical(a));
    LinesOfJoin(Canonical(b));
  }

  lemma {:induction false} DropCrIdentity(s: string)
    requires '\r' !in s
    ensures DropCr(s) == s
  {
    if s != [] {
      DropCrIdentity(s[1..]);
    }
  }

  lemma RTrimAllIdentity(ls: seq<string>)
    requires forall i :: 0 <= i < |ls| ==> RTrim(ls[i]) == ls[i]
    ensures RTrimAll(ls) == ls
  {
  }

  lemma {:induction false} UnlinesNoCr(ls: seq<string>)
    requires forall i :: 0 <= i < |ls| ==> '\r' !in ls[i]
    ensures '\r' !in Unlines(ls)
  {
    if ls != [] {
      UnlinesNoCr(ls[1..]);
    }
  }

  lemma SettledIsCanonical(c: seq<string>)
    requires Settled(c)
    ensures Canonical(Join(c)) == c
  {
    var j := Join(c);
    LinesOfJoin(c);
    assert '\r' !in j by {
      if c != [] {
        UnlinesNoCr(c[..|c| - 1]);
      }
    }
    DropCrIdentity(j);
    RTrimAllIdentity(c);
  }

  /** Normalising twice is normalising once. */
  lemma NormalizeIdempotent(s: string)
    ensures Canonical(Join(Canonical(s))) == Canonical(s)
  {
    CanonicalSettled(s);
    SettledIsCanonical(Canonical(s));
  }

  // --------------------------------------------------------------- what it is blind to

  lemma {:induction false} DropCrConcat(a: string, b: string)
    ensures DropCr(a + b) == DropCr(a) + DropCr(b)
  {
    if a == [] {
      assert a + b == b;
    } else {
      var h, t := a[0], a[1..];
      DropCrConcat(t, b);
      ConsConcat(a, b);
      if h != '\r' {
        assert [h] + (DropCr(t) + DropCr(b)) == [h] + DropCr(t) + DropCr(b);
      }
    }
  }

  lemma ConsConcat(a: string, b: string)
    requires a != []
    ensures (a + b)[0] == a[0] && (a + b)[1..] == a[1..] + b
  {
  }

  lemma DropCrChar(c: char)
    ensures DropCr([c]) == if c == '\r' then [] else [c]
  {
    assert [c][1..] == [];
  }

  /** Carriage returns do not count, wherever they are. */
  lemma BlindToCr(a: string, b: string)
    ensures Canonical(a + ['\r'] + b) == Canonical(a + b)
  {
    DropCrConcat(a + ['\r'], b);
    DropCrConcat(a, ['\r']);
    DropCrConcat(a, b);
    DropCrChar('\r');
    assert DropCr(a) + [] == DropCr(a);
  }

  lemma RTrimAllCons(l: string, ls: seq<string>)
    ensures RTrimAll([l] + ls) == [RTrim(l)] + RTrimAll(ls)
  {
  }

  lemma RTrimBlank(line: string, c: char)
    requires IsBlank(c)
    ensures RTrim(line + [c]) == RTrim(line)
  {
    assert (line + [c])[..|line|] == line;
  }

  lemma CutConcat(a: string, n: nat, rest: string)
    requires n < |a| && a[n] == '\n'
    ensures a + rest == a[..n] + "\n" + (a[n + 1..] + rest)
  {
  }

  lemma LinesSplit(a: string, n: nat, rest: string)
    requires n == Find(a, '\n') < |a|
    ensures Lines(a + rest) == [a[..n]] + Lines(a[n + 1..] + rest)
  {
    LinesCons(a[..n], a[n + 1..] + rest);
    CutConcat(a, n, rest);
  }

  /** `x` or `y` ends a line that `a` began; only the trimmed lines matter. */
  lemma {:induction false} SameTrimmedEnd(a: string, x: string, y: string, b: string)
    requires '\n' !in x && '\n' !in y
    requires forall line :: RTrim(line + x) == RTrim(line + y)
    ensures RTrimAll(Lines(a + (x + "\n" + b))) == RTrimAll(Lines(a + (y + "\n" + b)))
    decreases |a|
  {
    if '\n' in a {
      var n := Find(a, '\n');
      FindPresent(a, '\n');
      LinesSplit(a, n, x + "\n" + b);
      LinesSplit(a, n, y + "\n" + b);
      SameTrimmedEnd(a[n + 1..], x, y, b);
      RTrimAllCons(a[..n], Lines(a[n + 1..] + (x + "\n" + b)));
      RTrimAllCons(a[..n], Lines(a[n + 1..] + (y + "\n" + b)));
    } else {
      assert a + (x + "\n" + b) == a + x + "\n" + b && a + (y + "\n" + b) == a + y + "\n" + b;
      LinesCons(a + x, b);
      LinesCons(a + y, b);
      RTrimAllCons(a + x, Lines(b));
      RTrimAllCons(a + y, Lines(b));
    }
  }

  /** Neither do spaces and tabs before a line end. */
  lemma BlindToTrailingBlank(a: string, c: char, b: string)
    requires c == ' ' || c == '\t'
    ensures Canonical(a + [c] + "\n" + b) == Canonical(a + "\n" + b)
  {
    forall line ensures RTrim(line + [c]) == RTrim(line + []) {
      RTrimBlank(line, c);
      assert line + [] == line;
    }
    SameTrimmedEnd(DropCr(a), [c], [], DropCr(b));
    DropCrEndLine(a, [c], b);
    DropCrEndLine(a, [], b);
    DropCrChar(c);
    assert a + [] == a;
  }

  lemma DropCrEndLine(a: string, x: string, b: string)
    ensures DropCr(a + x + "\n" + b) == DropCr(a) + (DropCr(x) + "\n" + DropCr(b))
  {
    DropCrChar('\n');
    var nl := "\n";
    var end := x + nl + b;
    DropCrConcat(x, nl);
    DropCrConcat(x + nl, b);
    DropCrConcat(a, end);
    assert a + end == a + x + nl + b;
  }

  lemma {:induction false} LinesPlusNewline(a: string)
    ensures Lines(a + "\n") == Lines(a) || Lines(a + "\n") == Lines(a) + [[]]
    decreases |a|
  {
    hide Lines;
    var n := Find(a, '\n');
    if n == |a| {
      assert a[..n] == a;
      NoMoreLines(a);
    } else {
      var t := a[n + 1..];
      LinesPlusNewline(t);
      LinesSplit(a, n, "\n");
      LinesStep(a, n, t);
      var first := [a[..n]];
      assert first + (Lines(t) + [[]]) == first + Lines(t) + [[]];
    }
  }

  lemma NoMoreLines(a: string)
    requires '\n' !in a
    ensures Lines(a + "\n") == Lines(a) || Lines(a + "\n") == Lines(a) + [[]]
  {
    LinesCons(a, []);
    assert a + "\n" + [] == a + "\n";
  }

  lemma RTrimAllSnoc(ls: seq<string>, last: string)
    ensures RTrimAll(ls + [last]) == RTrimAll(ls) + [RTrim(last)]
  {
  }

  /** Nor do newlines at the very end. */
  lemma BlindToFinalNewline(a: string)
    ensures Canonical(a + "\n") == Canonical(a)
  {
    var t := DropCr(a);
    DropCrConcat(a, "\n");
    DropCrChar('\n');
    LinesPlusNewline(t);
    RTrimAllSnoc(Lines(t), []);
    var trimmed := RTrimAll(Lines(t));
    assert (trimmed + [[]])[..|trimmed|] == trimmed;
  }

  lemma BlindToFinalBlank(a: string, c: char)
    requires c == ' ' || c == '\t'
    ensures Canonical(a + [c]) == Canonical(a)
  {
    BlindToFinalNewline(a + [c]);
    BlindToFinalNewline(a);
    BlindToTrailingBlank(a, c, []);
    assert a + [c] + "\n" + [] == a + [c] + "\n" && a + "\n" + [] == a + "\n";
  }

  // ---------------------------------------------------------------------- what it sees

  /** A character at which nobody looks. */
  predicate Ignored(s: string, i: nat)
    requires i < |s|
  {
    || s[i] == '\r'
    || ((s[i] == ' ' || s[i] == '\t') && (i == |s| - 1 || s[i + 1] == '\n'))
    || (s[i] == '\n' && i == |s| - 1)
  }

  predicate Plain(s: string) { forall i :: 0 <= i < |s| ==> !Ignored(s, i) }

  lemma PlainSuffix(s: string, n: nat)
    requires Plain(s) && n <= |s|
    ensures Plain(s[n..])
  {
    var t := s[n..];
    forall i | 0 <= i < |t| ensures !Ignored(t, i) {
      assert !Ignored(s, n + i);
    }
  }

  /** Trimming stops at every other character. */
  lemma RTrimKeeps(line: string, c: char)
    requires c !in {' ', '\t', '\r'}
    ensures RTrim(line + [c]) == line + [c]
  {
  }

  lemma JoinCons(line: string, ls: seq<string>)
    requires ls != []
    ensures Join([line] + ls) == line + "\n" + Join(ls)
  {
    var n := |ls| - 1;
    assert ([line] + ls)[..n + 1] == [line] + ls[..n];
    assert ([line] + ls[..n])[1..] == ls[..n];
    assert line + "\n" + Unlines(ls[..n]) + ls[n] == line + "\n" + (Unlines(ls[..n]) + ls[n]);
  }

  lemma PlainFirstLine(s: string, n: nat)
    requires Plain(s) && s != [] && n == Find(s, '\n')
    ensures RTrim(s[..n]) == s[..n]
  {
    if n > 0 {
      assert !Ignored(s, n - 1);
      RTrimKeeps(s[..n - 1], s[n - 1]);
      assert s[..n - 1] + [s[n - 1]] == s[..n];
    }
  }

  /** The lines of a plain text are trimmed, and together they are the text. */
  lemma {:induction false} PlainLines(s: string)
    requires Plain(s)
    ensures var ls := Lines(s);
            (forall i :: 0 <= i < |ls| ==> RTrim(ls[i]) == ls[i]) &&
            Join(ls) == s && (s != [] ==> ls != [] && ls[|ls| - 1] != [])
    decreases |s|
  {
    hide RTrim, Unlines, Lines, Join;
    JoinFew(s);
    if s != [] {
      var n := Find(s, '\n');
      PlainFirstLine(s, n);
      if n == |s| {
        LinesStep(s, n, []);
        assert s[..n] == s && [s] + [] == [s];
      } else {
        var rest := s[n + 1..];
        assert !Ignored(s, |s| - 1);
        PlainSuffix(s, n + 1);
        PlainLines(rest);
        LinesStep(s, n, rest);
        JoinCons(s[..n], Lines(rest));
        assert s == s[..n] + "\n" + rest;
      }
    }
  }

  lemma JoinFew(s: string)
    ensures Lines([]) == [] && Join([]) == "" && Join([s]) == s
  {
    assert [s][..0] == [] && "" + s == s;
  }

  lemma PlainNoCr(s: string)
    requires Plain(s)
    ensures '\r' !in s
  {
    if '\r' in s {
      var i :| 0 <= i < |s| && s[i] == '\r';
      assert Ignored(s, i);
    }
  }

  /** A plain text is its own normal form. */
  lemma PlainIsNormal(s: string)
    requires Plain(s)
    ensures Canonical(s) == Lines(s) && Join(Canonical(s)) == s
  {
    PlainNoCr(s);
    DropCrIdentity(s);
    PlainLines(s);
    RTrimAllIdentity(Lines(s));
  }

  /** Of texts without ignored characters each matches only itself. */
  lemma SeesTheRest(a: string, b: string)
    requires Plain(a) && Plain(b)
    ensures Canonical(a) == Canonical(b) <==> a == b
  {
    PlainIsNormal(a);
    PlainIsNormal(b);
  }

  function Without(s: string, i: nat): string
    requires i < |s|
  {
    s[..i] + s[i + 1..]
  }

  /** Dropping ignored characters one by one, at the positions `path`, leads from `s` to `p`. */
  predicate Reduces(s: string, path: seq<nat>, p: string) {
    if path == [] then p == s
    else path[0] < |s| && Ignored(s, path[0]) && Reduces(Without(s, path[0]), path[1..], p)
  }

  lemma DropOne(s: string, i: nat)
    requires i < |s| && Ignored(s, i)
    ensures Canonical(Without(s, i)) == Canonical(s)
  {
    hide Canonical;
    var a, c, b := s[..i], s[i], s[i + 1..];
    assert s == a + [c] + b;
    if c == '\r' {
      BlindToCr(a, b);
    } else if i == |s| - 1 {
      assert b == [] && a + [c] + [] == a + [c] && a + [] == a;
      if c == '\n' {
        BlindToFinalNewline(a);
      } else {
        BlindToFinalBlank(a, c);
      }
    } else {
      BlindToTrailingBlank(a, c, b[1..]);
      assert b == "\n" + b[1..];
      assert a + [c] + "\n" + b[1..] == s && a + "\n" + b[1..] == a + b;
    }
  }

  lemma {:induction false} DropAll(s: string, path: seq<nat>, p: string)
    requires Reduces(s, path, p)
    ensures Canonical(p) == Canonical(s)
    decreases |path|
  {
    hide Canonical, Ignored;
    if path != [] {
      DropOne(s, path[0]);
      DropAll(Without(s, path[0]), path[1..], p);
    }
  }

  /** The comparison said without the code: in whatever order the ignored characters are
      dropped from both texts, they match exactly if the same plain text is left. */
  lemma MatchExactly(a: string, pathA: seq<nat>, p: string, b: string, pathB: seq<nat>, q: string)
    requires Reduces(a, pathA, p) && Plain(p)
    requires Reduces(b, pathB, q) && Plain(q)
    ensures Canonical(a) == Canonical(b) <==> p == q
  {
    hide Canonical, Plain, Reduces;
    DropAll(a, pathA, p);
    DropAll(b, pathB, q);
    SeesTheRest(p, q);
  }

  /** And there is such a text for each. */
  lemma {:induction false} PlainText(s: string) returns (path: seq<nat>, p: string)
    ensures Reduces(s, path, p) && Plain(p)
    decreases |s|
  {
    hide Ignored;
    if Plain(s) {
      path, p := [], s;
    } else {
      var i: nat :| i < |s| && Ignored(s, i);
      var more;
      more, p := PlainText(Without(s, i));
      path := [i] + more;
      assert path[1..] == more;
    }
  }

  /** The normal form is what is left of the text when nothing more can be dropped. */
  lemma NormalFormIsLeft(s: string) returns (path: seq<nat>)
    ensures Reduces(s, path, Join(Canonical(s))) && Plain(Join(Canonical(s)))
  {
    hide Canonical, Reduces, Plain, Join;
    var p;
    path, p := PlainText(s);
    DropAll(s, path, p);
    PlainIsNormal(p);
  }
}
