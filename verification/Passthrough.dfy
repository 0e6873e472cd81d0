/** A stream handed on line by line, whatever the reads it arrives in. */
module Passthrough {
  import opened Wrappers
  import opened Lines

  // ---- Go slices: appending writes in place while the array has room ----

  datatype Slice = Slice(data: array<byte>, lo: nat, hi: nat)

  predicate InBounds(s: Slice) {
    s.lo <= s.hi <= s.data.Length
  }

  function Content(s: Slice): seq<byte>
    requires InBounds(s)
    reads s.data
  {
    s.data[s.lo..s.hi]
  }

  /** `append`: the element goes behind the slice, into the same array if there is room, and
      whatever was there is overwritten; otherwise into a larger copy. */
  method Append(s: Slice, xs: seq<byte>) returns (r: Slice)
    requires InBounds(s)
    modifies s.data
    ensures InBounds(r) && Content(r) == old(Content(s)) + xs
    ensures s.hi + |xs| <= s.data.Length ==> r == Slice(s.data, s.lo, s.hi + |xs|)
    ensures s.hi + |xs| > s.data.Length ==> fresh(r.data) && s.data[..] == old(s.data[..])
    ensures s.data[..s.hi] == old(s.data[..s.hi])
    ensures s.hi + |xs| <= s.data.Length ==> s.data[s.hi + |xs|..] == old(s.data[s.hi + |xs|..])
  {
    if s.hi + |xs| <= s.data.Length {
      forall i | 0 <= i < |xs| {
        s.data[s.hi + i] := xs[i];
      }
      return Slice(s.data, s.lo, s.hi + |xs|);
    }
    var n := s.hi - s.lo;
    var old' := s.data[s.lo..s.hi];
    var bigger := new byte[2 * (n + |xs|)](i requires 0 <= i < 2 * (n + |xs|) =>
      if i < n then old'[i] else if i < n + |xs| then xs[i - n] else 0);
    r := Slice(bigger, 0, n + |xs|);
    assert Content(r) == old' + xs;
  }

  // ---- The usage a stream reports ----

  datatype Report = Report(prompt: int, completion: int, model: string, found: bool)

  const NO_REPORT := Report(0, 0, "", false)

  /** The larger of the counts, and the model last named; now something has been found. */
  function Merge(u: Report, r: Report): Report {
    Report(if r.prompt > u.prompt then r.prompt else u.prompt,
           if r.completion > u.completion then r.completion else u.completion,
           if r.model != "" then r.model else u.model, true)
  }

  function Bare(l: seq<byte>): seq<byte> {
    if l != [] && l[|l| - 1] == LF then l[..|l| - 1] else l
  }

  /** What the lines report together; `extract` reads the report of a line, if it has one. */
  function Reported(lines: seq<seq<byte>>, extract: seq<byte> -> Option<Report>): Report {
    if lines == [] then NO_REPORT
    else
      var u, r := Reported(lines[..|lines| - 1], extract), extract(Bare(lines[|lines| - 1]));
      if r.Some? then Merge(u, r.value) else u
  }

  lemma ReportedSnoc(lines: seq<seq<byte>>, l: seq<byte>, extract: seq<byte> -> Option<Report>)
    ensures Reported(lines + [l], extract) ==
      var u, r := Reported(lines, extract), extract(Bare(l));
      if r.Some? then Merge(u, r.value) else u
  {
    assert (lines + [l])[..|lines|] == lines;
  }

  /** The reports of the lines, in order. */
  function Reports(lines: seq<seq<byte>>, extract: seq<byte> -> Option<Report>): seq<Report> {
    if lines == [] then []
    else
      var r := extract(Bare(lines[|lines| - 1]));
      Reports(lines[..|lines| - 1], extract) + if r.Some? then [r.value] else []
  }

  /** Each count is the largest any line reports, or 0 if none reports more; something has been
      found exactly if some line reports. */
  lemma {:induction false} LargestCounts(lines: seq<seq<byte>>, extract: seq<byte> -> Option<Report>)
    ensures
      var u, rs := Reported(lines, extract), Reports(lines, extract);
      && u.prompt >= 0 && u.completion >= 0 && (u.found <==> rs != [])
      && (forall i :: 0 <= i < |rs| ==> rs[i].prompt <= u.prompt && rs[i].completion <= u.completion)
      && (u.prompt != 0 ==> exists i :: 0 <= i < |rs| && rs[i].prompt == u.prompt)
      && (u.completion != 0 ==> exists i :: 0 <= i < |rs| && rs[i].completion == u.completion)
  {
    if lines != [] {
      var init, r := lines[..|lines| - 1], extract(Bare(lines[|lines| - 1]));
      LargestCounts(init, extract);
      if r.Some? {
        var rs := Reports(init, extract);
        MergedCounts(Reported(init, extract), rs, r.value);
      }
    }
  }

  lemma MergedCounts(u: Report, rs: seq<Report>, r: Report)
    requires u.prompt >= 0 && u.completion >= 0
    requires forall i :: 0 <= i < |rs| ==> rs[i].prompt <= u.prompt && rs[i].completion <= u.completion
    requires u.prompt != 0 ==> exists i :: 0 <= i < |rs| && rs[i].prompt == u.prompt
    requires u.completion != 0 ==> exists i :: 0 <= i < |rs| && rs[i].completion == u.completion
    ensures
      var m, all := Merge(u, r), rs + [r];
      && m.prompt >= 0 && m.completion >= 0 && m.found
      && (forall i :: 0 <= i < |all| ==> all[i].prompt <= m.prompt && all[i].completion <= m.completion)
      && (m.prompt != 0 ==> exists i :: 0 <= i < |all| && all[i].prompt == m.prompt)
      && (m.completion != 0 ==> exists i :: 0 <= i < |all| && all[i].completion == m.completion)
  {
    var all := rs + [r];
    assert all[|rs|] == r;
    assert forall i :: 0 <= i < |rs| ==> all[i] == rs[i];
  }

  /** The model is the last one a line names. */
  lemma {:induction false} LastModelNamed(lines: seq<seq<byte>>, extract: seq<byte> -> Option<Report>, i: int)
    requires
      var rs := Reports(lines, extract);
      -1 <= i < |rs| && (i >= 0 ==> rs[i].model != "") && forall j :: i < j < |rs| ==> rs[j].model == ""
    ensures Reported(lines, extract).model == if i < 0 then "" else Reports(lines, extract)[i].model
  {
    if lines != [] {
      var init, r := lines[..|lines| - 1], extract(Bare(lines[|lines| - 1]));
      var rs, before := Reports(lines, extract), Reports(init, extract);
      assert forall j :: 0 <= j < |before| ==> rs[j] == before[j];
      assert before + [] == before && (r.Some? ==> rs[|before|] == r.value);
      if r.None? || i < |before| {
        LastModelNamed(init, extract, i);
      }
    }
  }

  /** The body with a line feed at its end, unless it is empty. */
  function Terminated(body: seq<byte>): seq<byte> {
    if body != [] && body[|body| - 1] != LF then body + [LF] else body
  }

  // ---- The copy loop ----

  lemma TailOf(d: seq<byte>, lo: nat, hi: nat, idx: nat)
    requires lo + idx < hi <= |d|
    ensures d[lo..hi][idx + 1..] == d[lo + idx + 1..][..hi - lo - idx - 1]
    ensures d[lo..hi][idx + 1..] == d[lo + idx + 1..hi]
  {
  }

  class Copier {
    var out: seq<byte>
    var usage: Report
    var pending: Slice
    const extract: seq<byte> -> Option<Report>
    /** The lines handled so far. */
    ghost var done: seq<seq<byte>>

    ghost predicate Valid()
      reads this, pending.data
    {
      && InBounds(pending)
      && (forall l <- done :: FullLine(l))
      && out == Concat(done)
      && usage == Reported(done, extract)
    }

    constructor (extract: seq<byte> -> Option<Report>)
      ensures Valid() && out == [] && Content(pending) == [] && fresh(pending.data) && this.extract == extract
    {
      this.extract := extract;
      out, usage, done := [], NO_REPORT, [];
      var empty := new byte[0];
      pending := Slice(empty, 0, 0);
    }

    /** Sends a line and its line feed, which is appended in place, and counts its usage. */
    method HandleLine(line: Slice)
      requires InBounds(line)
      modifies this`out, this`usage, line.data
      ensures out == old(out) + old(Content(line)) + [LF]
      ensures usage == var r := extract(old(Content(line))); if r.Some? then Merge(old(usage), r.value) else old(usage)
      ensures line.data[..line.hi] == old(line.data[..line.hi])
      ensures line.hi < line.data.Length ==> line.data[line.hi + 1..] == old(line.data[line.hi + 1..])
    {
      var appended := Append(line, [LF]);
      out := out + Content(appended);
      assert Content(line) == line.data[..line.hi][line.lo..];
      var r := extract(Content(line));
      if r.Some? {
        usage := Merge(usage, r.value);
      }
    }

    method IndexOf(s: Slice, c: byte) returns (i: int)
      requires InBounds(s)
      ensures i < 0 ==> c !in Content(s)
      ensures 0 <= i ==> i < |Content(s)| && Content(s)[i] == c && c !in Content(s)[..i]
    {
      for k := 0 to s.hi - s.lo
        invariant c !in Content(s)[..k]
      {
        if s.data[s.lo + k] == c {
          return k;
        }
        assert Content(s)[..k + 1] == Content(s)[..k] + [s.data[s.lo + k]];
      }
      assert Content(s)[..s.hi - s.lo] == Content(s);
      return -1;
    }

    /** Handles the first line of what has been read; the rest stays, unharmed, although the
        line feed is appended within its array. */
    method TakeLine(idx: nat)
      requires Valid() && idx < |Content(pending)| && Content(pending)[idx] == LF && LF !in Content(pending)[..idx]
      modifies this, pending.data
      ensures Valid() && pending.data == old(pending.data)
      ensures Content(pending) == old(Content(pending))[idx + 1..]
      ensures out == old(out) + old(Content(pending))[..idx + 1]
    {
      hide Reported, Concat;
      ghost var line := Content(pending)[..idx];
      assert line + [LF] == Content(pending)[..idx + 1];
      assert out + line + [LF] == out + (line + [LF]);
      var rest := Slice(pending.data, pending.lo + idx + 1, pending.hi);
      ghost var tail := rest.data[rest.lo..];
      ghost var d := pending.data[..];
      assert Content(pending) == d[pending.lo..pending.hi] && tail == d[rest.lo..];
      TailOf(d, pending.lo, pending.hi, idx);
      assert d[pending.lo..pending.lo + idx] == line;
      HandleLine(Slice(pending.data, pending.lo, pending.lo + idx));
      assert rest.data[rest.lo..] == tail;
      ghost var d' := pending.data[..];
      assert Content(rest) == d'[rest.lo..rest.hi] && tail == d'[rest.lo..];
      TailOf(d', rest.lo - 1, rest.hi, 0);
      pending := rest;
      ReportedSnoc(done, line + [LF], extract);
      ConcatSnoc(done, line + [LF]);
      assert FullLine(line + [LF]) && Bare(line + [LF]) == line;
      done := done + [line + [LF]];
    }

    /** Handles every complete line of what has been read. */
    method Drain()
      requires Valid()
      modifies this, pending.data
      ensures Valid() && pending.data == old(pending.data)
      ensures out + Content(pending) == old(out + Content(pending))
      ensures LF !in Content(pending)
    {
      ghost var all := out + Content(pending);
      while true
        invariant Valid() && pending.data == old(pending.data)
        invariant out + Content(pending) == all
        decreases |Content(pending)|
      {
        hide Reported;
        var idx := IndexOf(pending, LF);
        if idx < 0 {
          return;
        }
        ghost var before := Content(pending);
        assert out + before == out + before[..idx + 1] + before[idx + 1..];
        TakeLine(idx);
      }
    }

    method Receive(read: seq<byte>)
      requires Valid()
      modifies this, pending.data
      ensures Valid() && (pending.data == old(pending.data) || fresh(pending.data))
      ensures out + Content(pending) == old(out + Content(pending)) + read
      ensures LF !in Content(pending)
    {
      pending := Append(pending, read);
      Drain();
    }
  }

  lemma AllCopied(done: seq<seq<byte>>, rest: seq<byte>, body: seq<byte>, extract: seq<byte> -> Option<Report>)
    requires forall l <- done :: FullLine(l)
    requires LF !in rest && Concat(done) + rest == body
    ensures rest != [] ==>
              Terminated(body) == body + [LF] && Reported(LinesOf(body), extract) == Reported(done + [rest], extract)
    ensures rest == [] ==> Terminated(body) == body && Reported(LinesOf(body), extract) == Reported(done, extract)
    ensures Concat(done) == [] || Concat(done)[|Concat(done)| - 1] == LF
    ensures body[|Concat(done)|..] == rest
  {
    LinesOfConcat(done, rest);
    LinesOfRest(rest);
    if done != [] {
      assert done[|done| - 1] in done;
    }
    if rest == [] {
      assert done + [] == done;
      assert body == Concat(done);
    }
  }

  /** Copies a body that arrives in the given parts: the client gets the body, with a line
      feed at its end, and the usage is what the lines of the body report; neither depends on
      how the body was split into parts. A read error loses an unfinished line, and the usage
      is what the lines sent report. */
  method StreamPassthrough(parts: seq<seq<byte>>, fails: bool, extract: seq<byte> -> Option<Report>)
    returns (out: seq<byte>, usage: Report)
    ensures !fails ==> out == Terminated(Concat(parts)) && usage == Reported(LinesOf(Concat(parts)), extract)
    ensures fails ==> usage == Reported(LinesOf(out), extract)
    ensures fails ==> out <= Concat(parts) && (out == [] || out[|out| - 1] == LF) && LF !in Concat(parts)[|out|..]
  {
    hide Reported, Terminated, LinesOf, FullLine;
    var c := new Copier(extract);
    for i := 0 to |parts|
      invariant c.Valid() && fresh(c) && fresh(c.pending.data)
      invariant c.out + Content(c.pending) == Concat(parts[..i])
      invariant LF !in Content(c.pending)
    {
      assert parts[..i + 1] == parts[..i] + [parts[i]];
      ConcatSnoc(parts[..i], parts[i]);
      c.Receive(parts[i]);
    }
    assert parts[..|parts|] == parts;
    ghost var rest := Content(c.pending);
    AllCopied(c.done, rest, Concat(parts), extract);
    if fails {
      assert Concat(c.done) + [] == c.out;
      AllCopied(c.done, [], c.out, extract);
      return c.out, c.usage;
    }
    if c.pending.hi > c.pending.lo {
      ReportedSnoc(c.done, rest, extract);
      NoLineFeed(rest);
      c.HandleLine(c.pending);
    }
    return c.out, c.usage;
  }

  lemma NoLineFeed(rest: seq<byte>)
    requires LF !in rest
    ensures Bare(rest) == rest
  {
  }
}
