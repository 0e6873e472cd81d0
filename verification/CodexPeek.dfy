/** The look ahead into an event stream that may still turn out to be an error: whole events
    are read, through a limit and a buffer, until one tells; then everything read is put back. */
module CodexPeek {
  import opened Wrappers
  import opened Lines

  // ---- Events ----

  predicate Blank(line: seq<byte>) {
    line == [LF] || line == [CR, LF]
  }

  /** The first event with the blank line that ends it; everything if there is none. */
  function FirstEvent(s: seq<byte>): (e: seq<byte>)
    ensures e <= s && (s != [] ==> e != [])
    decreases |s|
  {
    var l := FirstLine(s);
    if s == [] || Blank(l) then l
    else
      assert s == l + s[|l|..];
      l + FirstEvent(s[|l|..])
  }

  /** The lines of an event: the last one is blank, a line feed with or without a carriage
      return, or ends the stream, and no line before it is blank. */
  predicate LinesOfEvent(ls: seq<seq<byte>>, atEnd: bool) {
    && ls != []
    && (forall i :: 0 <= i < |ls| - 1 ==> ls[i] != [10] && ls[i] != [13, 10])
    && (ls[|ls| - 1] == [10] || ls[|ls| - 1] == [13, 10] || atEnd)
  }

  lemma OneLineMore(l: seq<byte>, ls: seq<seq<byte>>, atEnd: bool)
    ensures Blank(l) || atEnd ==> LinesOfEvent([l], atEnd)
    ensures !Blank(l) && LinesOfEvent(ls, atEnd) ==> LinesOfEvent([l] + ls, atEnd)
  {
    var all := [l] + ls;
    assert forall i :: 0 <= i < |ls| ==> all[i + 1] == ls[i];
    assert forall i :: 0 < i < |all| ==> all[i] == ls[i - 1];
  }

  lemma {:induction false} FirstEventExactly(s: seq<byte>)
    requires s != []
    ensures LinesOfEvent(LinesOf(FirstEvent(s)), FirstEvent(s) == s)
    decreases |s|
  {
    hide LinesOfEvent, LinesOf, FirstLine, Blank, FullLine;
    var l := FirstLine(s);
    var rest := s[|l|..];
    assert s == l + rest;
    assert LinesOf([]) == [] by { NoLines(); }
    if Blank(l) {
      FirstLineFull(s);
      LinesOfCons(l, []);
      assert l + [] == l && [l] + [] == [l];
      OneLineMore(l, [], l == s);
    } else if rest == [] {
      assert l + [] == l && FirstEvent(s) == s;
      OnlyLine(s);
      OneLineMore(l, [], true);
    } else {
      FirstEventExactly(rest);
      FirstLineFull(s);
      LinesOfCons(l, FirstEvent(rest));
      OneLineMore(l, LinesOf(FirstEvent(rest)), FirstEvent(rest) == rest);
      assert FirstEvent(rest) == rest ==> FirstEvent(s) == s;
      assert FirstEvent(s) == s ==> FirstEvent(rest) == rest by {
        if l + FirstEvent(rest) == l + rest {
          assert (l + FirstEvent(rest))[|l|..] == FirstEvent(rest) && (l + rest)[|l|..] == rest;
        }
      }
    }
  }

  lemma NoLines()
    ensures LinesOf([]) == []
  {
  }

  lemma OnlyLine(s: seq<byte>)
    requires s != [] && FirstLine(s) == s
    ensures LinesOf(s) == [s]
  {
    assert s[|s|..] == [];
  }

  lemma FirstLineFull(s: seq<byte>)
    requires s != [] && (FirstLine(s) != s || Blank(FirstLine(s)))
    ensures FullLine(FirstLine(s))
  {
  }

  function EventsOf(s: seq<byte>): seq<seq<byte>>
    decreases |s|
  {
    if s == [] then [] else [FirstEvent(s)] + EventsOf(s[|FirstEvent(s)|..])
  }

  lemma {:induction false} EventsJoin(s: seq<byte>)
    ensures Concat(EventsOf(s)) == s
    decreases |s|
  {
    hide FirstEvent, Concat;
    assert Concat([]) == [] by { NothingJoined(); }
    if s != [] {
      var e := FirstEvent(s);
      EventsJoin(s[|e|..]);
      ConcatCons(e, EventsOf(s[|e|..]));
      assert s == e + s[|e|..];
    }
  }

  lemma NothingJoined()
    ensures Concat([]) == []
  {
  }

  /** How an event is judged: whether it looks like a frame at all, whether it carries output
      the user sees, and whether it is an error that another channel might not have. */
  datatype Judge = Judge(frameLike: seq<byte> -> bool, hasOutput: seq<byte> -> bool,
                         failure: seq<byte> -> Option<string>)

  datatype Verdict = Passed | NotAStream | Retryable(message: string)

  /** The event says nothing yet. */
  predicate Quiet(j: Judge, e: seq<byte>) {
    j.frameLike(e) && !j.hasOutput(e) && j.failure(e).None?
  }

  /** What an event that is not quiet decides. */
  function Decides(j: Judge, e: seq<byte>): Verdict {
    if !j.frameLike(e) then NotAStream
    else if j.hasOutput(e) || j.failure(e).None? then Passed
    else Retryable(j.failure(e).value)
  }

  /** The first event that is not quiet; the number of events if all are. */
  function Telling(j: Judge, events: seq<seq<byte>>): (n: nat)
    ensures n <= |events|
    ensures forall i :: 0 <= i < n ==> Quiet(j, events[i])
    ensures n < |events| ==> !Quiet(j, events[n])
  {
    if events == [] || !Quiet(j, events[0]) then 0
    else
      var n := Telling(j, events[1..]);
      assert forall i :: 0 < i <= n ==> events[i] == events[1..][i - 1] || i == |events|;
      n + 1
  }

  /** The verdict on the part of a body that may be looked at. */
  function VerdictOn(j: Judge, window: seq<byte>): Verdict {
    var events := EventsOf(window);
    var n := Telling(j, events);
    if n < |events| then Decides(j, events[n]) else Passed
  }

  /** Event `n` fails with a message, and neither it nor any event before it carries output. */
  predicate FailsAt(j: Judge, events: seq<seq<byte>>, n: nat, message: string) {
    && n < |events|
    && j.frameLike(events[n]) && !j.hasOutput(events[n]) && j.failure(events[n]) == Some(message)
    && forall i :: 0 <= i < n ==> Quiet(j, events[i])
  }

  /** Event `n` is no frame, and no event before it tells anything. */
  predicate StrangeAt(j: Judge, events: seq<seq<byte>>, n: nat) {
    n < |events| && !j.frameLike(events[n]) && forall i :: 0 <= i < n ==> Quiet(j, events[i])
  }

  lemma TellingIs(j: Judge, events: seq<seq<byte>>, n: nat)
    requires n < |events| && !Quiet(j, events[n]) && forall i :: 0 <= i < n ==> Quiet(j, events[i])
    ensures Telling(j, events) == n
  {
  }

  /** A retry is called for exactly if some event fails before any output was seen, and the body
      is no event stream exactly if some event is no frame before any other tells. */
  lemma RetryOnlyBeforeOutput(j: Judge, window: seq<byte>, message: string)
    ensures VerdictOn(j, window) == Retryable(message) ==>
              FailsAt(j, EventsOf(window), Telling(j, EventsOf(window)), message)
    ensures forall n: nat :: FailsAt(j, EventsOf(window), n, message) ==> VerdictOn(j, window) == Retryable(message)
    ensures VerdictOn(j, window) == NotAStream ==> StrangeAt(j, EventsOf(window), Telling(j, EventsOf(window)))
    ensures forall n: nat :: StrangeAt(j, EventsOf(window), n) ==> VerdictOn(j, window) == NotAStream
  {
    var events := EventsOf(window);
    hide Telling, EventsOf;
    forall n: nat | FailsAt(j, events, n, message) ensures VerdictOn(j, window) == Retryable(message) {
      TellingIs(j, events, n);
    }
    forall n: nat | StrangeAt(j, events, n) ensures VerdictOn(j, window) == NotAStream {
      TellingIs(j, events, n);
    }
  }

  lemma TellingCons(j: Judge, e: seq<byte>, rest: seq<seq<byte>>)
    ensures Telling(j, [e] + rest) == if Quiet(j, e) then Telling(j, rest) + 1 else 0
  {
    assert ([e] + rest)[1..] == rest;
  }

  lemma EventsCons(s: seq<byte>)
    requires s != []
    ensures EventsOf(s) == [FirstEvent(s)] + EventsOf(s[|FirstEvent(s)|..])
  {
    hide FirstEvent;
  }

  lemma VerdictStep(j: Judge, window: seq<byte>)
    requires window != []
    ensures VerdictOn(j, window) ==
      var e := FirstEvent(window);
      if Quiet(j, e) then VerdictOn(j, window[|e|..]) else Decides(j, e)
  {
    hide FirstEvent, Quiet, Decides, EventsOf, Telling;
    var e := FirstEvent(window);
    var rest := EventsOf(window[|e|..]);
    EventsCons(window);
    TellingCons(j, e, rest);
    assert forall i :: 0 <= i < |rest| ==> ([e] + rest)[i + 1] == rest[i];
  }

  // ---- Readers ----

  function Min(a: nat, b: nat): nat { if a <= b then a else b }

  /** What a read reports: more may follow, the end, or a failure of the connection. */
  datatype Signal = More | EOF | Broken

  /** The body of a response, which ends or breaks off after its last byte; `size` decides how
      much each read returns. */
  class Body {
    var rest: seq<byte>
    var turn: nat
    const size: nat -> nat
    const end: Signal

    constructor (rest: seq<byte>, size: nat -> nat, breaks: bool)
      ensures this.rest == rest && end == if breaks then Broken else EOF
    {
      this.rest, turn, this.size := rest, 0, size;
      end := if breaks then Broken else EOF;
    }

    method Read(max: nat) returns (got: seq<byte>, err: Signal)
      requires max > 0
      modifies this
      ensures old(rest) == got + rest && |got| <= max
      ensures got == [] <==> old(rest) == []
      ensures err == if got == [] then end else More
    {
      if rest == [] {
        return [], end;
      }
      var n := 1 + size(turn) % Min(max, |rest|);
      got, err := rest[..n], More;
      rest, turn := rest[n..], turn + 1;
    }
  }

  /** At most `n` more bytes of a body. */
  class LimitedReader {
    const src: Body
    var n: nat

    constructor (src: Body, n: nat)
      ensures this.src == src && this.n == n
    {
      this.src, this.n := src, n;
    }

    /** What may still be read, and what lies beyond the limit. */
    ghost function Window(): seq<byte>
      reads this, src
    {
      src.rest[..Min(n, |src.rest|)]
    }

    ghost function Beyond(): seq<byte>
      reads this, src
    {
      src.rest[Min(n, |src.rest|)..]
    }

    method Read(max: nat) returns (got: seq<byte>, err: Signal)
      requires max > 0
      modifies this, src
      ensures old(Window()) == got + Window() && Beyond() == old(Beyond())
      ensures got == [] <==> old(Window()) == []
      ensures got != [] ==> err == More
      ensures got == [] ==> err == EOF || (err == src.end && src.rest == [])
    {
      if n == 0 {
        return [], EOF;
      }
      got, err := src.Read(Min(max, n));
      n := n - |got|;
    }
  }

  /** A buffered reader over the limit. */
  class BufReader {
    const src: LimitedReader
    var buf: seq<byte>

    constructor (src: LimitedReader)
      ensures this.src == src && buf == []
    {
      this.src, buf := src, [];
    }

    /** What this reader can still deliver, and what is out of its reach. */
    ghost function Pending(): seq<byte>
      reads this, src, src.src
    {
      buf + src.Window()
    }

    ghost function Beyond(): seq<byte>
      reads src, src.src
    {
      src.Beyond()
    }

    /** Refills the empty buffer. */
    method Fill() returns (err: Signal)
      requires buf == []
      modifies this, src, src.src
      ensures Pending() == old(Pending()) && Beyond() == old(Beyond())
      ensures buf == [] <==> old(Pending()) == []
      ensures buf != [] ==> err == More
      ensures buf == [] ==> err == EOF || (err == src.src.end && src.src.rest == [])
      ensures |src.Window()| + |buf| == |old(src.Window())|
    {
      buf, err := src.Read(4096);
    }

    /** Moves the first `n` buffered bytes to a line. */
    method MoveTo(line: seq<byte>, n: nat, ghost whole: seq<byte>) returns (longer: seq<byte>)
      requires n <= |buf| && line + Pending() == whole
      modifies this
      ensures longer == line + old(buf)[..n] && buf == old(buf)[n..]
      ensures longer + Pending() == whole && Beyond() == old(Beyond())
    {
      longer := line + buf[..n];
      buf := buf[n..];
      assert old(buf) == old(buf)[..n] + old(buf)[n..];
      assert line + (old(buf)[..n] + Pending()) == longer + Pending();
    }

    /** A line with its line feed, or what is left before an error. */
    method ReadString() returns (line: seq<byte>, err: bool)
      modifies this, src, src.src
      ensures line == FirstLine(old(Pending()))
      ensures err <==> (line == [] || line[|line| - 1] != LF)
      ensures Pending() == old(Pending())[|line|..] && Beyond() == old(Beyond())
    {
      hide FirstLine, LineEnd, Pending, Beyond;
      line := [];
      ghost var whole := Pending();
      assert line + Pending() == whole;
      while true
        invariant LF !in line
        invariant line + Pending() == whole && Beyond() == old(Beyond())
        decreases |src.Window()|
      {
        var n := LineEnd(buf);
        if n < |buf| {
          assert Pending() == buf + src.Window() by { PendingIs(); }
          LineFound(line, buf, src.Window());
          line := MoveTo(line, n + 1, whole);
          return line, false;
        }
        line := MoveTo(line, |buf|, whole);
        var _ := Fill();
        if buf == [] {
          LineUnfinished(line);
          return line, true;
        }
      }
    }

    lemma PendingIs()
      ensures Pending() == buf + src.Window() && Beyond() == src.Beyond()
    {
    }

    /** Up to `max` bytes of what is left within the limit. */
    method Read(max: nat) returns (got: seq<byte>, err: Signal)
      requires max > 0
      modifies this, src, src.src
      ensures old(Pending()) == got + Pending() && Beyond() == old(Beyond())
      ensures got == [] <==> old(Pending()) == []
      ensures got != [] ==> err == More
      ensures got == [] ==> err == EOF || (err == src.src.end && src.src.rest == [])
    {
      if buf == [] {
        err := Fill();
        if buf == [] {
          return [], err;
        }
      }
      ghost var whole := Pending();
      assert [] + Pending() == whole;
      got := MoveTo([], Min(max, |buf|), whole);
      err := More;
    }

    /** An event with its blank line, or what is left before an error. */
    method ReadEvent() returns (event: seq<byte>, err: bool)
      modifies this, src, src.src
      ensures event == FirstEvent(old(Pending()))
      ensures Pending() == old(Pending())[|event|..] && Beyond() == old(Beyond())
      ensures err ==> Pending() == []
      ensures !err ==> event != []
    {
      hide Pending, Beyond, FirstEvent, FirstLine, InEvent;
      event := [];
      ghost var whole := Pending();
      EventBegins(whole);
      while true
        invariant InEvent(whole, event, Pending()) && Beyond() == old(Beyond())
        decreases |Pending()|
      {
        ghost var rest := Pending();
        var line;
        line, err := ReadString();
        EventGoesOn(whole, event, rest);
        event := event + line;
        if line != [] && Blank(line) {
          return;
        }
        if err {
          return;
        }
      }
    }
  }

  /** Part of the first event has been read, `rest` is still to be read. */
  predicate InEvent(whole: seq<byte>, event: seq<byte>, rest: seq<byte>) {
    whole == event + rest && FirstEvent(whole) == event + FirstEvent(rest)
  }

  lemma EventBegins(whole: seq<byte>)
    ensures InEvent(whole, [], whole)
  {
    assert [] + whole == whole && [] + FirstEvent(whole) == FirstEvent(whole);
  }

  lemma FirstEventStarts(s: seq<byte>)
    ensures FirstEvent([]) == []
    ensures
      var l := FirstLine(s);
      FirstEvent(s) == if l == [] || Blank(l) then l else l + FirstEvent(s[|l|..])
  {
  }

  /** A line without a line feed is the last one. */
  lemma LastLine(s: seq<byte>)
    requires FirstLine(s) == [] || FirstLine(s)[|FirstLine(s)| - 1] != LF
    ensures FirstLine(s) == s
  {
  }

  lemma EventGoesOn(whole: seq<byte>, event: seq<byte>, rest: seq<byte>)
    requires InEvent(whole, event, rest)
    ensures
      var l := FirstLine(rest);
      && whole[|event + l|..] == rest[|l|..]
      && (l != [] && !Blank(l) ==> InEvent(whole, event + l, rest[|l|..]))
      && (l == [] || Blank(l) ==> FirstEvent(whole) == event + l)
      && (l == [] || l[|l| - 1] != LF ==> rest[|l|..] == [] && FirstEvent(whole) == event + l)
      && |l| <= |rest| && (l != [] ==> |rest[|l|..]| < |rest|)
  {
    hide FirstLine, FirstEvent, Blank;
    var l := FirstLine(rest);
    assert rest == l + rest[|l|..];
    assert whole == event + l + rest[|l|..];
    FirstEventStarts(rest);
    if l != [] && !Blank(l) {
      assert event + (l + rest[|l|..]) == event + l + rest[|l|..];
      assert event + (l + FirstEvent(rest[|l|..])) == event + l + FirstEvent(rest[|l|..]);
    }
    if l == [] || l[|l| - 1] != LF {
      assert l == rest by { LastLine(rest); }
      assert event + l + [] == event + l;
    }
  }

  lemma LineFound(line: seq<byte>, buf: seq<byte>, rest: seq<byte>)
    requires LF !in line && LineEnd(buf) < |buf|
    ensures FirstLine(line + (buf + rest)) == line + buf[..LineEnd(buf) + 1]
  {
    hide FirstLine, LineEnd;
    FirstLineGoesOn(line, buf + rest);
    LineBuffered(buf, rest);
  }

  lemma LineBuffered(buf: seq<byte>, rest: seq<byte>)
    requires LineEnd(buf) < |buf|
    ensures FirstLine(buf + rest) == buf[..LineEnd(buf) + 1]
  {
    hide LineEnd;
    var n, all := LineEnd(buf), buf + rest;
    assert LineEnd(all) == n by {
      assert forall i :: 0 <= i <= n ==> all[i] == buf[i];
    }
    assert all[..n + 1] == buf[..n + 1];
  }

  lemma LineUnfinished(line: seq<byte>)
    requires LF !in line
    ensures FirstLine(line) == line && FirstLine(line + []) == line
  {
    assert line + [] == line;
  }

  // ---- The look ahead ----

  const PEEK_LIMIT := 262144

  /** The part of a body that is looked at. */
  function Window(body: seq<byte>): seq<byte> {
    body[..Min(PEEK_LIMIT, |body|)]
  }

  /** What was read, what is buffered, and what is still unread, one after another. */
  class ReplayBody {
    var prefix: seq<byte>
    const reader: BufReader
    const original: Body

    constructor (prefix: seq<byte>, reader: BufReader)
      ensures this.prefix == prefix && this.reader == reader && original == reader.src.src
    {
      this.prefix, this.reader, original := prefix, reader, reader.src.src;
    }

    ghost function Remaining(): seq<byte>
      reads this, reader, reader.src, reader.src.src
    {
      prefix + (reader.Pending() + reader.Beyond())
    }

    /** Reads past what the limited reader can reach. */
    method ReadOriginal(max: nat) returns (got: seq<byte>, err: Signal)
      requires original == reader.src.src && max > 0 && reader.Pending() == []
      modifies original
      ensures reader.Pending() == [] && old(reader.Beyond()) == got + reader.Beyond()
      ensures got == [] <==> old(reader.Beyond()) == []
      ensures err == if got == [] then original.end else More
    {
      assert reader.Beyond() == original.rest;
      got, err := original.Read(max);
      assert reader.Pending() == [] && reader.Beyond() == original.rest;
    }

    /** Reads of any size deliver the remaining bytes in order and lose none, and then report
        what the original would report, its end or its failure. */
    method Read(max: nat) returns (got: seq<byte>, err: Signal)
      requires original == reader.src.src && max > 0
      modifies this, reader, reader.src, reader.src.src
      ensures old(Remaining()) == got + Remaining()
      ensures got == [] <==> old(Remaining()) == []
      ensures err == if got == [] then original.end else More
    {
      if prefix != [] {
        var n := Min(max, |prefix|);
        got, prefix := prefix[..n], prefix[n..];
        assert old(prefix) == got + prefix;
        return got, More;
      }
      assert prefix + (reader.Pending() + reader.Beyond()) == reader.Pending() + reader.Beyond();
      got, err := reader.Read(max);
      if err == EOF {
        got, err := ReadOriginal(max);
      } else if err == Broken {
        assert reader.Beyond() == [];
      }
    }
  }

  /** Reads event after event until one tells, and keeps what was read. */
  method LookAhead(reader: BufReader, j: Judge) returns (verdict: Verdict, prefix: seq<byte>)
    requires |reader.Pending()| <= PEEK_LIMIT
    modifies reader, reader.src, reader.src.src
    ensures verdict == VerdictOn(j, old(reader.Pending()))
    ensures verdict == Passed ==> prefix + reader.Pending() == old(reader.Pending())
    ensures reader.Beyond() == old(reader.Beyond())
  {
    hide VerdictOn, FirstEvent, Quiet, Decides;
    prefix := [];
    ghost var window := reader.Pending();
    assert prefix + window == window;
    while |prefix| < PEEK_LIMIT
      invariant prefix + reader.Pending() == window && reader.Beyond() == old(reader.Beyond())
      invariant VerdictOn(j, window) == VerdictOn(j, reader.Pending())
      decreases |reader.Pending()|
    {
      ghost var before := reader.Pending();
      var event, err := reader.ReadEvent();
      Consumed(prefix, before, event);
      if event != [] {
        JudgeEvent(j, before);
        if !j.frameLike(event) {
          return NotAStream, prefix;
        }
        prefix := prefix + event;
        if j.hasOutput(event) {
          return Passed, prefix;
        }
        if j.failure(event).Some? {
          return Retryable(j.failure(event).value), prefix;
        }
      }
      if err {
        break;
      }
    }
    PassedAtEnd(j);
    return Passed, prefix;
  }

  lemma JudgeEvent(j: Judge, window: seq<byte>)
    requires window != []
    ensures VerdictOn(j, window) ==
      var e := FirstEvent(window);
      if !j.frameLike(e) then NotAStream
      else if j.hasOutput(e) then Passed
      else if j.failure(e).Some? then Retryable(j.failure(e).value)
      else VerdictOn(j, window[|e|..])
  {
    hide VerdictOn;
    VerdictStep(j, window);
  }

  /** Looks into a response before anything is written to the client. The verdict depends on
      the first bytes of the body alone, not on how they arrive; when it is to go on, the body
      that replaces the original delivers exactly what the original would have, whether that
      ends or breaks off. */
  method PeekError(status: int, body: Body, j: Judge) returns (verdict: Verdict, replay: ReplayBody)
    modifies body
    ensures replay.original == replay.reader.src.src
    ensures status != 200 ==> verdict == Passed
    ensures status == 200 ==> verdict == VerdictOn(j, Window(old(body.rest)))
    ensures verdict == Passed ==> replay.Remaining() == old(body.rest)
  {
    hide VerdictOn;
    var limited := new LimitedReader(body, PEEK_LIMIT);
    var reader := new BufReader(limited);
    assert reader.Pending() == Window(body.rest) && reader.Pending() + reader.Beyond() == body.rest;
    var prefix: seq<byte> := [];
    verdict := Passed;
    if status == 200 {
      verdict, prefix := LookAhead(reader, j);
    }
    replay := new ReplayBody(prefix, reader);
    if verdict == Passed {
      assert prefix + (reader.Pending() + reader.Beyond()) == prefix + reader.Pending() + reader.Beyond();
    }
  }

  lemma Consumed(prefix: seq<byte>, before: seq<byte>, event: seq<byte>)
    requires event == FirstEvent(before)
    ensures prefix + before == prefix + event + before[|event|..]
    ensures before == [] <==> event == []
  {
    assert before == event + before[|event|..];
  }

  lemma PassedAtEnd(j: Judge)
    ensures VerdictOn(j, []) == Passed
  {
  }
}
