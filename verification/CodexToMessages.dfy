/** A Codex upstream to a Messages client: both conversions in a row, chunk by chunk. */
module CodexToMessages {
  import opened Wrappers
  import opened Chat
  import opened CodexEvents
  import opened CodexStream
  import A = AnthropicCalls
  import opened AnthropicReply
  import AC = AnthropicClient
  import AO = AnthropicOut

  /** The finish reason travels between the two conversions in a form the second one does not
      look at, and so does the usage: the message always ends with "end_turn" and no tokens. */
  ghost predicate Ended(written: seq<AC.Event>, ps: seq<Piece>) {
    && (Orderly(ps) ==>
          exists model :: AC.Read(written) == Some(AC.Stopped(AC.Head(model, 0), Parts(ps), "end_turn", Usage(0, 0))))
    && (!Orderly(ps) ==> AC.Read(written).None?)
  }

  ghost predicate Passing(out: AO.AnthropicOutState, said: seq<Piece>)
    reads out
  {
    && out.Valid() && !out.finishSent
    && out.heard == said
    && out.finish == "stop" && out.promptTok == 0 && out.complTok == 0
    && (out.started ==> out.head.inputTokens == 0)
  }

  /** The events up to and including the first one that ends the run. */
  function UpToEnd(events: seq<Event>): seq<Event> {
    if events == [] then [] else if EndsRun(events[0]) then [events[0]] else [events[0]] + UpToEnd(events[1..])
  }

  /** For every sequence of events the client gets a well-formed stream exactly if every
      fragment of arguments comes while a tool's block is open, and it reads back what the
      events say up to the end of the run; for a well-formed run that is what the run says.
      The usage to be billed is the one the run ended with. */
  method BridgeCodexToMessages(upModel: string, events: seq<Event>)
    returns (written: seq<AC.Event>, lastUsage: Option<Usage>)
    ensures Ended(written, Spoken(UpToEnd(events)))
    ensures Ran(events).Some? ==> Says(Spoken(UpToEnd(events)), Ran(events).value)
    ensures Ran(events).Some? && Ran(events).value.end.Some? ==> lastUsage == Ran(events).value.end.value
  {
    hide Follows, Says, Advance, Ran, Parts, Orderly, UpToEnd, Spoken, TablesOf, SayingOf, After, HasEnded;
    var cs := new CodexChunkState();
    var out := new AO.AnthropicOutState(upModel);
    lastUsage := None;
    RanNothing();
    NothingSpoken();
    var i := 0;
    while i < |events| && !cs.finishSent
      invariant 0 <= i <= |events|
      invariant cs.Valid() && cs.run == Ran(events[..i])
      invariant cs.said == Spoken(events[..i]) && cs.View() == TablesOf(events[..i])
      invariant !cs.finishSent ==> !HasEnded(events[..i]) && forall j :: 0 <= j < i ==> !EndsRun(events[j])
      invariant cs.finishSent ==> i > 0 && EndsRun(events[i - 1]) && forall j :: 0 <= j < i - 1 ==> !EndsRun(events[j])
      invariant !cs.finishSent ==> Passing(out, cs.said)
      invariant cs.finishSent ==> out.Valid() && out.finishSent && Ended(out.written, cs.said)
      invariant cs.run.Some? && cs.run.value.end.None? ==> lastUsage == None
      invariant cs.run.Some? && cs.run.value.end.Some? ==> lastUsage == cs.run.value.end.value
    {
      assert events[..i + 1] == events[..i] + [events[i]];
      RanSnoc(events[..i], events[i]);
      SpokenSnoc(events[..i], events[i]);
      EndOf(cs.run, events[i]);
      lastUsage := PassOne(cs, out, events[i], lastUsage);
      i := i + 1;
    }
    if !cs.finishSent {
      Finish(out, cs.said);
    }
    out.FinishStream();
    SaidAll(cs.run, cs.said, cs.View());
    NothingAfter(events, i);
    FirstEnd(events, i);
    written := out.written;
  }

  method PassOne(cs: CodexChunkState, out: AO.AnthropicOutState, e: Event, lastUsage: Option<Usage>)
    returns (usage: Option<Usage>)
    requires cs.Valid() && !cs.finishSent && Passing(out, cs.said)
    modifies cs, out
    ensures cs.Valid() && cs.run == Next(old(cs.run), e)
    ensures cs.said == old(cs.said) + SayingOf(old(cs.View()), false, e) && cs.View() == After(old(cs.View()), e)
    ensures !cs.finishSent ==> Passing(out, cs.said)
    ensures cs.finishSent ==> out.Valid() && out.finishSent && Ended(out.written, cs.said)
    ensures cs.finishSent == (e.Completed? || e.Failed?)
    ensures usage == if e.Completed? && e.usage.Some? then e.usage else lastUsage
  {
    hide Follows, Says, Advance, Parts, Orderly, AO.AnthropicOutState.Valid, SayingOf, After;
    var chunk, u, fin := cs.Convert(e);
    usage := if u.Some? then u else lastUsage;
    if chunk.Some? {
      var _, _ := out.Feed(chunk.value);
    } else {
      assert out.heard == cs.said;
    }
    if fin {
      Finish(out, cs.said);
    }
  }

  method Finish(out: AO.AnthropicOutState, ghost said: seq<Piece>)
    requires Passing(out, said)
    modifies out
    ensures out.Valid() && out.finishSent && Ended(out.written, said)
  {
    hide Parts, Orderly, AO.AnthropicOutState.Valid;
    out.FinishStream();
    assert out.head == AC.Head(out.head.model, 0);
  }

  /** Nothing may follow the end of a run, nor a mistake. */
  lemma {:induction false} NothingAfter(events: seq<Event>, i: nat)
    requires i <= |events|
    ensures i < |events| && (Ran(events[..i]).None? || Ran(events[..i]).value.end.Some?) ==> Ran(events).None?
    ensures i == |events| ==> events[..i] == events
    decreases |events|
  {
    if i < |events| {
      var n := |events| - 1;
      assert events[..n][..i] == events[..i];
      NothingAfter(events[..n], i);
    }
  }

  lemma {:induction false} FirstEnd(events: seq<Event>, i: nat)
    requires i <= |events| && forall j :: 0 <= j < i - 1 ==> !EndsRun(events[j])
    requires i == |events| || (i > 0 && EndsRun(events[i - 1]))
    ensures UpToEnd(events) == events[..i]
  {
    if i == 1 && EndsRun(events[0]) {
      assert events[..1] == [events[0]];
    } else if i > 0 {
      FirstEnd(events[1..], i - 1);
      assert events[..i] == [events[0]] + events[1..][..i - 1];
    }
  }

  /** The usage a run ended with; none counts as zero. */
  function TokensOf(run: Run): Usage {
    if run.end.Some? && run.end.value.Some? then run.end.value.value else Usage(0, 0)
  }

  /** The message tells why the run stopped exactly if the run made no calls, and what it used
      exactly if that was nothing. */
  lemma StopAndTokensExactly(run: Run, written: seq<AC.Event>, ps: seq<Piece>)
    requires Ended(written, ps) && Orderly(ps)
    ensures
      var c := AC.Read(written);
      && c.Some? && c.value.Stopped?
      && (c.value.stopReason == StopFromFinish(Reason(run)) <==> run.calls == [])
      && (c.value.usage == TokensOf(run) <==> TokensOf(run) == Usage(0, 0))
  {
    assert StopFromFinish("tool_calls")[0] != "end_turn"[0];
  }

  /** A run of one call that used one token each way: the message ends as a turn without tokens. */
  lemma ToolUseIsLost(written: seq<AC.Event>)
    requires Ended(written, Spoken(UpToEnd(SingleCall(Function, "{}", Some(Usage(1, 1))))))
    ensures
      var run, c := Ran(SingleCall(Function, "{}", Some(Usage(1, 1)))), AC.Read(written);
      && run.Some? && StopFromFinish(Reason(run.value)) == "tool_use" && TokensOf(run.value) == Usage(1, 1)
      && c.Some? && c.value.Stopped? && c.value.stopReason == "end_turn" && c.value.usage == Usage(0, 0)
  {
    SingleCallRuns(Function, "{}", Some(Usage(1, 1)));
    SingleCallSays("{}", Some(Usage(1, 1)));
  }

  lemma SingleCallSays(payload: string, usage: Option<Usage>)
    requires payload != ""
    ensures Orderly(Spoken(UpToEnd(SingleCall(Function, payload, usage))))
  {
    hide Orderly, Parts, Grown, Spoken, UpToEnd;
    var p, q := Call(ToolEntry(0, "c", "", "f", "")), Call(ToolEntry(0, "", "", "", payload));
    SingleCallSpoken(payload, usage);
    PartsSnoc([], p);
    PartsSnoc([p], q);
    assert [] + [p] == [p];
    assert Orderly([]) by { NothingOrderly(); }
    assert InToolBlock([p]) by { NamedOpens(Parts([]), p); }
  }

  lemma NamedOpens(parts: seq<AC.Part>, p: Piece)
    requires p.Call? && p.entry.name != ""
    ensures Grown(parts, p) != [] && Last(Grown(parts, p)).block.ToolUse?
  {
  }

  lemma SingleCallSpoken(payload: string, usage: Option<Usage>)
    requires payload != ""
    ensures Spoken(UpToEnd(SingleCall(Function, payload, usage))) ==
      [Call(ToolEntry(0, "c", "", "f", ""))] + [Call(ToolEntry(0, "", "", "", payload))]
  {
    hide SayingOf, After, Spoken, UpToEnd, HasEnded, TablesOf;
    var events := SingleCall(Function, payload, usage);
    var a, d, c := events[0], events[1], events[2];
    FirstEnd(events, 3);
    assert events[..3] == events;
    NothingSpoken();
    SpokenSnoc([], a);
    SpokenSnoc([a], d);
    SpokenSnoc([a, d], c);
    assert [] + [a] == [a] && [a] + [d] == [a, d] && [a, d] + [c] == events;
    SingleCallPieces(payload, usage);
  }

  /** What each event of the run says. */
  lemma SingleCallPieces(payload: string, usage: Option<Usage>)
    requires payload != ""
    ensures
      var events := SingleCall(Function, payload, usage);
      var t := After(NO_TABLES, events[0]);
      && SayingOf(NO_TABLES, false, events[0]) == [Call(ToolEntry(0, "c", "", "f", ""))]
      && SayingOf(t, false, events[1]) == [Call(ToolEntry(0, "", "", "", payload))]
      && SayingOf(After(t, events[1]), false, events[2]) == []
      && !EndsRun(events[0]) && !EndsRun(events[1])
  {
  }

  lemma NothingOrderly()
    ensures Orderly([])
  {
  }

  /** Whatever the events, a readable message holds the whole reasoning and the whole text up
      to the end of the run, and the report of a failure that ends it. */
  lemma TextAndReasoningSurvive(events: seq<Event>)
    requires Orderly(Spoken(UpToEnd(events)))
    ensures A.Joined(Parts(Spoken(UpToEnd(events))), AC.ThinkingDelta) == ReasoningOf(UpToEnd(events))
    ensures A.Joined(Parts(Spoken(UpToEnd(events))), AC.TextDelta) == TextOf(UpToEnd(events))
  {
    A.TextSurvives(Spoken(UpToEnd(events)));
    SpokenContent(UpToEnd(events));
  }

  /** The calls of a run as the client's blocks. */
  function Blocks(run: Run): seq<AC.Part> {
    seq(|run.calls|, i requires 0 <= i < |run.calls| =>
      AC.Part(AC.ToolUse(run.calls[i].callId, Trunc(run.calls[i].name, 128)), Streamed(run.calls[i])))
  }

  /** Of a well-formed run that is readable, the client gets the whole text, and the calls in
      the order in which they were announced, each with its own arguments, exactly if the
      calls come one after another. */
  lemma RunSurvives(run: Run, ps: seq<Piece>)
    requires Says(ps, run) && Orderly(ps)
    ensures A.Joined(Parts(ps), AC.TextDelta) == run.text
    ensures A.Sequential(ps) <==> A.Tools(Parts(ps)) == Blocks(run)
  {
    A.TextSurvives(ps);
    A.CallsSurviveExactly(ps);
    forall i | 0 <= i < |run.calls| ensures A.CallBlocks(ps)[i] == Blocks(run)[i] {
      assert SaysCall(ps, i, run.calls[i]);
    }
    assert A.CallBlocks(ps) == Blocks(run);
  }
}
