/** Lines of a byte stream (section 9.2.6 of the WHATWG HTML Standard frames events by them). */
module Lines {
  newtype byte = x: int | 0 <= x < 256

  const LF: byte := 10
  const CR: byte := 13

  /** The place of the first line feed; the length if there is none. */
  function LineEnd(s: seq<byte>): (n: nat)
    ensures n <= |s| && (n < |s| ==> s[n] == LF)
    ensures forall i :: 0 <= i < n ==> s[i] != LF
  {
    if s == [] || s[0] == LF then 0
    else
      var n := LineEnd(s[1..]);
      assert forall i :: 0 < i <= n ==> s[i] == s[1..][i - 1];
      n + 1
  }

  /** The first line with its line feed; everything if there is none. */
  function FirstLine(s: seq<byte>): (l: seq<byte>)
    ensures l <= s && (s != [] ==> l != [])
  {
    var n := LineEnd(s);
    if n < |s| then s[..n + 1] else s
  }

  /** A beginning without a line feed is part of the first line. */
  lemma FirstLineGoesOn(a: seq<byte>, b: seq<byte>)
    requires LF !in a
    ensures FirstLine(a + b) == a + FirstLine(b)
  {
    var n, m := LineEnd(a + b), LineEnd(b);
    assert forall i :: 0 <= i < |a| ==> (a + b)[i] == a[i];
    assert forall i :: 0 <= i < |b| ==> (a + b)[|a| + i] == b[i];
    assert n == |a| + m;
  }

  predicate FullLine(l: seq<byte>) {
    l != [] && l[|l| - 1] == LF && LF !in l[..|l| - 1]
  }

  lemma FirstLineEnds(l: seq<byte>, rest: seq<byte>)
    requires FullLine(l)
    ensures FirstLine(l + rest) == l && (l + rest)[|l|..] == rest
  {
    var n := |l| - 1;
    assert l + rest == l[..n] + ([LF] + rest);
    FirstLineGoesOn(l[..n], [LF] + rest);
    assert FirstLine([LF] + rest) == [LF];
  }

  /** The lines of a stream, each with its line feed; the last one may lack it. */
  function LinesOf(s: seq<byte>): seq<seq<byte>>
    decreases |s|
  {
    if s == [] then [] else [FirstLine(s)] + LinesOf(s[|FirstLine(s)|..])
  }

  function Concat(parts: seq<seq<byte>>): seq<byte> {
    if parts == [] then [] else Concat(parts[..|parts| - 1]) + parts[|parts| - 1]
  }

  lemma ConcatSnoc(parts: seq<seq<byte>>, p: seq<byte>)
    ensures Concat(parts + [p]) == Concat(parts) + p
  {
    assert (parts + [p])[..|parts|] == parts;
  }

  lemma {:induction false} ConcatCons(p: seq<byte>, parts: seq<seq<byte>>)
    ensures Concat([p] + parts) == p + Concat(parts)
  {
    if parts == [] {
      assert [p] + parts == [p] && [p][..0] == [];
    } else {
      var n := |parts| - 1;
      assert ([p] + parts)[..n + 1] == [p] + parts[..n];
      ConcatCons(p, parts[..n]);
      assert p + Concat(parts[..n]) + parts[n] == p + (Concat(parts[..n]) + parts[n]);
    }
  }

  /** The lines of a stream lose nothing. */
  lemma {:induction false} LinesJoin(s: seq<byte>)
    ensures Concat(LinesOf(s)) == s
    decreases |s|
  {
    if s != [] {
      var l := FirstLine(s);
      LinesJoin(s[|l|..]);
      ConcatCons(l, LinesOf(s[|l|..]));
      assert s == l + s[|l|..];
    }
  }

  lemma LinesOfCons(l: seq<byte>, rest: seq<byte>)
    requires FullLine(l)
    ensures LinesOf(l + rest) == [l] + LinesOf(rest)
  {
    FirstLineEnds(l, rest);
  }

  /** Full lines are the lines of what they make. */
  lemma {:induction false} LinesOfConcat(done: seq<seq<byte>>, rest: seq<byte>)
    requires forall l <- done :: FullLine(l)
    ensures LinesOf(Concat(done) + rest) == done + LinesOf(rest)
    decreases |done|
  {
    hide LinesOf, FullLine;
    if done == [] {
      assert [] + rest == rest;
    } else {
      var init, l := done[..|done| - 1], done[|done| - 1];
      assert Concat(done) + rest == Concat(init) + (l + rest);
      LinesOfConcat(init, l + rest);
      LinesOfCons(l, rest);
      assert done + LinesOf(rest) == init + ([l] + LinesOf(rest));
    }
  }

  lemma LinesOfRest(rest: seq<byte>)
    requires LF !in rest
    ensures LinesOf(rest) == if rest == [] then [] else [rest]
  {
    if rest != [] {
      assert FirstLine(rest) == rest && rest[|rest|..] == [];
    }
  }
}
