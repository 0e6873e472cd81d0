/** The consumer of an Anthropic upstream: Anthropic events in, chat chunks out. */
module AnthropicIn {
  import opened Wrappers
  import opened Chat

  /** An upstream event. `clock` is the identifier that would be generated at this moment. */
  datatype Upstream = Upstream(model: string, clock: string, body: Body)

  datatype Body =
    | MessageStart(inputTokens: Option<int>)
    | BlockStart(index: int, kind: string, id: string, name: string)
    | TextPart(index: int, text: string)
    | ThinkingPart(index: int, thinking: string)
    | JsonPart(index: int, fragment: string)
    | MessageDelta(stopReason: string, usage: Option<Usage>)
    | MessageStop
    | Failure(message: string)
    | Ignored

  function FinishFromStop(reason: string): string {
    if reason == "max_tokens" then "length"
    else if reason == "tool_use" then "tool_calls"
    else "stop"
  }

  function ErrorText(message: string): string {
    "[Error] " + FirstNonEmpty(message, "upstream error")
  }

  // ---- What a sequence of events says, read off the events themselves ----

  predicate IsToolStart(u: Upstream) {
    u.body.BlockStart? && u.body.kind == "tool_use"
  }

  function ToolStarts(us: seq<Upstream>): nat {
    if us == [] then 0
    else ToolStarts(us[..|us| - 1]) + if IsToolStart(us[|us| - 1]) then 1 else 0
  }

  /** The number of the tool that the latest start of block `b` began. */
  function LatestStart(us: seq<Upstream>, b: int): Option<nat> {
    if us == [] then None
    else if IsToolStart(us[|us| - 1]) && us[|us| - 1].body.index == b then Some(ToolStarts(us[..|us| - 1]))
    else LatestStart(us[..|us| - 1], b)
  }

  /** The tool an argument fragment of block `b` belongs to: the one its block began, else
      the tool begun last, else the first one. */
  function Owner(us: seq<Upstream>, b: int): nat {
    if LatestStart(us, b).Some? then LatestStart(us, b).value
    else if ToolStarts(us) > 0 then ToolStarts(us) - 1
    else 0
  }

  predicate Ended(us: seq<Upstream>) {
    exists u <- us :: u.body.MessageStop? || u.body.Failure?
  }

  /** What one event says after the events `us`. */
  function Saying(us: seq<Upstream>, u: Upstream): seq<Piece> {
    match u.body
    case TextPart(_, text) => if text != "" then [Text(text)] else []
    case ThinkingPart(_, thinking) => if thinking != "" then [Thought(thinking)] else []
    case BlockStart(_, kind, id, name) =>
      if kind == "tool_use"
      then [Call(ToolEntry(ToolStarts(us), FirstNonEmpty(id, u.clock), u.clock, Trunc(name, 128), ""))]
      else []
    case JsonPart(b, fragment) =>
      if fragment != "" then [Call(ToolEntry(Owner(us, b), "", u.clock, "", fragment))] else []
    case Failure(message) => if Ended(us) then [] else [Text(ErrorText(message))]
    case _ => []
  }

  function Sayings(us: seq<Upstream>): seq<Piece> {
    if us == [] then [] else Sayings(us[..|us| - 1]) + Saying(us[..|us| - 1], us[|us| - 1])
  }

  function ModelOf(initial: string, us: seq<Upstream>): string {
    if us == [] then initial
    else if us[|us| - 1].model != "" then us[|us| - 1].model
    else ModelOf(initial, us[..|us| - 1])
  }

  function FinishAfter(us: seq<Upstream>): string {
    if us == [] then "stop"
    else
      var u := us[|us| - 1];
      if IsToolStart(u) then "tool_calls"
      else if u.body.MessageDelta? && u.body.stopReason != "" then FinishFromStop(u.body.stopReason)
      else FinishAfter(us[..|us| - 1])
  }

  function Counted(t: Usage, u: Upstream): Usage {
    match u.body
    case MessageStart(input) => if input.Some? then t.(prompt := input.value) else t
    case MessageDelta(_, usage) =>
      if usage.Some? then Usage(if usage.value.prompt > 0 then usage.value.prompt else t.prompt, usage.value.completion)
      else t
    case _ => t
  }

  function TokensAfter(us: seq<Upstream>): Usage {
    if us == [] then Usage(0, 0) else Counted(TokensAfter(us[..|us| - 1]), us[|us| - 1])
  }

  // ---- Tokens and finish reason by the event that decides them ----

  /** The event counts the tokens of the prompt. */
  predicate CountsPrompt(u: Upstream) {
    (u.body.MessageStart? && u.body.inputTokens.Some?)
    || (u.body.MessageDelta? && u.body.usage.Some? && u.body.usage.value.prompt > 0)
  }

  predicate CountsCompletion(u: Upstream) {
    u.body.MessageDelta? && u.body.usage.Some?
  }

  /** The event decides why the message ends. */
  predicate GivesFinish(u: Upstream) {
    (u.body.BlockStart? && u.body.kind == "tool_use") || (u.body.MessageDelta? && u.body.stopReason != "")
  }

  /** The prompt tokens are those of the last event that counts them, number `i`; 0 if there is
      none (`i` is -1). */
  lemma {:induction false} PromptByIndex(us: seq<Upstream>, i: int)
    requires -1 <= i < |us| && (i >= 0 ==> CountsPrompt(us[i]))
    requires forall j :: i < j < |us| ==> !CountsPrompt(us[j])
    ensures TokensAfter(us).prompt ==
      if i < 0 then 0
      else if us[i].body.MessageStart? then us[i].body.inputTokens.value else us[i].body.usage.value.prompt
  {
    if i < |us| - 1 {
      PromptByIndex(us[..|us| - 1], i);
    }
  }

  /** The completion tokens are those of the last delta with usage, number `i`; 0 if there is
      none. */
  lemma {:induction false} CompletionByIndex(us: seq<Upstream>, i: int)
    requires -1 <= i < |us| && (i >= 0 ==> CountsCompletion(us[i]))
    requires forall j :: i < j < |us| ==> !CountsCompletion(us[j])
    ensures TokensAfter(us).completion == if i < 0 then 0 else us[i].body.usage.value.completion
  {
    if i < |us| - 1 {
      CompletionByIndex(us[..|us| - 1], i);
    }
  }

  /** The model is that of the last event that names one, number `i`, or the one asked for. */
  lemma {:induction false} ModelByEvent(initial: string, us: seq<Upstream>, i: int)
    requires -1 <= i < |us| && (i >= 0 ==> us[i].model != "")
    requires forall j :: i < j < |us| ==> us[j].model == ""
    ensures ModelOf(initial, us) == if i < 0 then initial else us[i].model
  {
    if i < |us| - 1 {
      ModelByEvent(initial, us[..|us| - 1], i);
    }
  }

  /** The finish reason is that of the last event that decides it, number `i`; "stop" if there
      is none. */
  lemma {:induction false} FinishByIndex(us: seq<Upstream>, i: int)
    requires -1 <= i < |us| && (i >= 0 ==> GivesFinish(us[i]))
    requires forall j :: i < j < |us| ==> !GivesFinish(us[j])
    ensures FinishAfter(us) ==
      if i < 0 then "stop"
      else if us[i].body.BlockStart? || us[i].body.stopReason == "tool_use" then "tool_calls"
      else if us[i].body.stopReason == "max_tokens" then "length"
      else "stop"
  {
    if i < |us| - 1 {
      FinishByIndex(us[..|us| - 1], i);
    }
  }

  /** The role has been announced: by the start of the message, or by the first thing said. */
  predicate Announced(us: seq<Upstream>) {
    if us == [] then false
    else
      var us0, u := us[..|us| - 1], us[|us| - 1];
      Announced(us0) || u.body.MessageStart? || Saying(us0, u) != []
  }

  lemma OneMore(us: seq<Upstream>, u: Upstream)
    ensures ToolStarts(us + [u]) == ToolStarts(us) + if IsToolStart(u) then 1 else 0
    ensures forall b :: LatestStart(us + [u], b) ==
                        if IsToolStart(u) && u.body.index == b then Some(ToolStarts(us)) else LatestStart(us, b)
    ensures FinishAfter(us + [u]) ==
      if IsToolStart(u) then "tool_calls"
      else if u.body.MessageDelta? && u.body.stopReason != "" then FinishFromStop(u.body.stopReason)
      else FinishAfter(us)
    ensures TokensAfter(us + [u]) == Counted(TokensAfter(us), u)
    ensures forall m :: ModelOf(m, us + [u]) == if u.model != "" then u.model else ModelOf(m, us)
    ensures Announced(us + [u]) == (Announced(us) || u.body.MessageStart? || Saying(us, u) != [])
    ensures Sayings(us + [u]) == Sayings(us) + Saying(us, u)
  {
    assert (us + [u])[..|us|] == us;
  }

  /** The finish reason of the chunk that comes out of an event. */
  function FinishGiven(us: seq<Upstream>, u: Upstream): FinishReason {
    if Ended(us) then Absent
    else if u.body.MessageStop? then InProcess(FinishAfter(us))
    else if u.body.Failure? then InProcess("stop")
    else Absent
  }

  /** The events that produce a chunk. */
  predicate Emits(us: seq<Upstream>, u: Upstream) {
    Saying(us, u) != [] || FinishGiven(us, u) != Absent || (u.body.MessageStart? && !Announced(us))
  }

  /** The chunk, if any, that must come out of an event. */
  ghost predicate Produces(us: seq<Upstream>, u: Upstream, model: string, chunk: Option<Chunk>) {
    if chunk.None? then !Emits(us, u)
    else
      var c := chunk.value;
      && Emits(us, u)
      && c.model == model && c.usage == None && c.choice.Some?
      && ChunkPieces(c) == Saying(us, u)
      && c.choice.value.finish == FinishGiven(us, u)
  }

  lemma ModelSnoc(initial: string, us: seq<Upstream>, u: Upstream)
    ensures ModelOf(initial, us + [u]) == if u.model != "" then u.model else ModelOf(initial, us)
  {
    OneMore(us, u);
  }

  ghost predicate StartsTrack(blockToTool: map<int, nat>, us: seq<Upstream>) {
    forall b :: LatestStart(us, b) == if b in blockToTool then Some(blockToTool[b]) else None
  }

  lemma StartsMore(blockToTool: map<int, nat>, us: seq<Upstream>, u: Upstream)
    requires StartsTrack(blockToTool, us)
    ensures StartsTrack(if IsToolStart(u) then blockToTool[u.body.index := ToolStarts(us)] else blockToTool, us + [u])
  {
    OneMore(us, u);
  }

  datatype Tables = Tables(toolIdx: nat, lastToolIdx: int, blockToTool: map<int, nat>, finish: string, finishSent: bool,
                           usage: Usage, roleSent: bool)

  /** The tables of the consumer hold what can be read off the events. */
  ghost predicate Follow(t: Tables, us: seq<Upstream>) {
    && t.toolIdx == ToolStarts(us)
    && t.lastToolIdx == t.toolIdx - 1
    && StartsTrack(t.blockToTool, us)
    && t.finish == FinishAfter(us)
    && t.finishSent == Ended(us)
    && t.usage == TokensAfter(us)
    && t.roleSent == Announced(us)
  }

  /** The tables after one more event. */
  function Grown(t: Tables, u: Upstream, says: bool): Tables {
    Tables(
      if IsToolStart(u) then t.toolIdx + 1 else t.toolIdx,
      if IsToolStart(u) then t.toolIdx else t.lastToolIdx,
      if IsToolStart(u) then t.blockToTool[u.body.index := t.toolIdx] else t.blockToTool,
      if IsToolStart(u) then "tool_calls"
      else if u.body.MessageDelta? && u.body.stopReason != "" then FinishFromStop(u.body.stopReason) else t.finish,
      t.finishSent || u.body.MessageStop? || u.body.Failure?,
      Counted(t.usage, u),
      t.roleSent || u.body.MessageStart? || says)
  }

  lemma FollowOn(t: Tables, us: seq<Upstream>, u: Upstream)
    requires Follow(t, us)
    ensures Follow(Grown(t, u, Saying(us, u) != []), us + [u])
  {
    hide StartsTrack, LatestStart, Saying, Ended, FinishFromStop, Counted;
    OneMore(us, u);
    EndedSnoc(us, u);
    StartsMore(t.blockToTool, us, u);
  }

  /** What the tables say about the next event. */
  lemma Followed(t: Tables, us: seq<Upstream>, b: int)
    requires Follow(t, us)
    ensures t.toolIdx == ToolStarts(us) && t.lastToolIdx == t.toolIdx - 1
    ensures t.finish == FinishAfter(us) && t.finishSent == Ended(us) && t.roleSent == Announced(us)
    ensures Owner(us, b) ==
      if b in t.blockToTool then t.blockToTool[b] else if t.lastToolIdx < 0 then 0 else t.lastToolIdx
  {
  }

  class AnthropicInState {
    var roleSent: bool
    var toolIdx: nat
    var blockToTool: map<int, nat>
    var lastToolIdx: int
    var finish: string
    var finishSent: bool
    var promptTok: int
    var complTok: int
    var model: string
    /** The events consumed. */
    ghost var consumed: seq<Upstream>
    ghost const initial: string

    function View(): Tables
      reads this`toolIdx, this`lastToolIdx, this`blockToTool, this`finish, this`finishSent
      reads this`promptTok, this`complTok, this`roleSent
    {
      Tables(toolIdx, lastToolIdx, blockToTool, finish, finishSent, Usage(promptTok, complTok), roleSent)
    }

    ghost predicate Tracks(us: seq<Upstream>)
      reads this`toolIdx, this`lastToolIdx, this`blockToTool, this`finish, this`finishSent
      reads this`promptTok, this`complTok, this`roleSent
    {
      Follow(View(), us)
    }

    ghost predicate Valid()
      reads this
    {
      Tracks(consumed) && model == ModelOf(initial, consumed)
    }

    constructor (model: string)
      ensures Valid() && consumed == [] && initial == model
    {
      roleSent, toolIdx, blockToTool, lastToolIdx := false, 0, map[], -1;
      finish, finishSent, promptTok, complTok := "stop", false, 0, 0;
      this.model, initial, consumed := model, model, [];
    }

    function ChunkOf(delta: Delta, finish: FinishReason): Chunk
      reads this`model
    {
      Chunk(model, None, Some(Choice(finish, delta)))
    }

    /** Consumes one event; at most one chunk comes out of it. */
    method Feed(u: Upstream) returns (chunk: Option<Chunk>)
      requires Valid()
      modifies this
      ensures Valid() && consumed == old(consumed) + [u]
      ensures Produces(old(consumed), u, model, chunk)
    {
      hide Tracks, Produces, ModelOf, LatestStart, FinishAfter, TokensAfter, Announced, Ended;
      ModelSnoc(initial, consumed, u);
      if u.model != "" {
        model := u.model;
      }
      match u.body {
        case MessageStart(_) => chunk := FeedStart(u);
        case BlockStart(_, _, _, _) => chunk := FeedBlockStart(u);
        case TextPart(_, text) => chunk := FeedText(u, Delta(text, "", []), text != "");
        case ThinkingPart(_, thinking) => chunk := FeedText(u, Delta("", thinking, []), thinking != "");
        case JsonPart(_, _) => chunk := FeedFragment(u);
        case MessageDelta(_, _) => chunk := FeedMessageDelta(u);
        case MessageStop => chunk := FeedEnd(u, NO_DELTA, finish);
        case Failure(message) => chunk := FeedEnd(u, Delta(ErrorText(message), "", []), "stop");
        case Ignored => chunk := FeedText(u, NO_DELTA, false);
      }
      consumed := consumed + [u];
    }

    method FeedStart(u: Upstream) returns (chunk: Option<Chunk>)
      requires Tracks(consumed) && u.body.MessageStart?
      modifies this`promptTok, this`roleSent
      ensures Tracks(consumed + [u]) && Produces(consumed, u, model, chunk)
    {
      hide Follow, ToolStarts, LatestStart, FinishAfter, Announced, Ended;
      FollowOn(View(), consumed, u);
      Followed(View(), consumed, 0);
      chunk := None;
      if u.body.inputTokens.Some? {
        promptTok := u.body.inputTokens.value;
      }
      if !roleSent {
        roleSent := true;
        chunk := Some(ChunkOf(NO_DELTA, Absent));
      }
    }

    method FeedBlockStart(u: Upstream) returns (chunk: Option<Chunk>)
      requires Tracks(consumed) && u.body.BlockStart?
      modifies this`toolIdx, this`blockToTool, this`lastToolIdx, this`finish, this`roleSent
      ensures Tracks(consumed + [u]) && Produces(consumed, u, model, chunk)
    {
      hide Follow, ToolStarts, LatestStart, FinishAfter, Announced, Ended;
      FollowOn(View(), consumed, u);
      Followed(View(), consumed, 0);
      chunk := None;
      if u.body.kind == "tool_use" {
        var idx := toolIdx;
        toolIdx := toolIdx + 1;
        blockToTool := blockToTool[u.body.index := idx];
        lastToolIdx := idx;
        finish := "tool_calls";
        roleSent := true;
        var entry := ToolEntry(idx, FirstNonEmpty(u.body.id, u.clock), u.clock, Trunc(u.body.name, 128), "");
        chunk := Some(ChunkOf(Delta("", "", [entry]), Absent));
      }
    }

    /** A piece of text or of reasoning; nothing at all if it is empty. */
    method FeedText(u: Upstream, delta: Delta, nonEmpty: bool) returns (chunk: Option<Chunk>)
      requires Tracks(consumed) && (u.body.TextPart? || u.body.ThinkingPart? || u.body.Ignored?)
      requires Saying(consumed, u) == if nonEmpty then DeltaPieces(delta) else []
      requires nonEmpty ==> DeltaPieces(delta) != []
      modifies this`roleSent
      ensures Tracks(consumed + [u]) && Produces(consumed, u, model, chunk)
    {
      hide Follow, ToolStarts, LatestStart, FinishAfter, Announced, Ended;
      FollowOn(View(), consumed, u);
      Followed(View(), consumed, 0);
      chunk := None;
      if nonEmpty {
        roleSent := true;
        chunk := Some(ChunkOf(delta, Absent));
      }
    }

    method FeedFragment(u: Upstream) returns (chunk: Option<Chunk>)
      requires Tracks(consumed) && u.body.JsonPart?
      modifies this`roleSent
      ensures Tracks(consumed + [u]) && Produces(consumed, u, model, chunk)
    {
      hide Follow, ToolStarts, Owner, FinishAfter, Announced, Ended;
      FollowOn(View(), consumed, u);
      Followed(View(), consumed, u.body.index);
      chunk := None;
      if u.body.fragment != "" {
        var idx: int;
        if u.body.index in blockToTool {
          idx := blockToTool[u.body.index];
        } else {
          idx := lastToolIdx;
          if idx < 0 {
            idx := 0;
          }
        }
        roleSent := true;
        chunk := Some(ChunkOf(Delta("", "", [ToolEntry(idx, "", u.clock, "", u.body.fragment)]), Absent));
      }
    }

    method FeedMessageDelta(u: Upstream) returns (chunk: Option<Chunk>)
      requires Tracks(consumed) && u.body.MessageDelta?
      modifies this`finish, this`promptTok, this`complTok
      ensures Tracks(consumed + [u]) && Produces(consumed, u, model, chunk)
    {
      hide Follow, ToolStarts, LatestStart, FinishAfter, Announced, Ended;
      FollowOn(View(), consumed, u);
      Followed(View(), consumed, 0);
      chunk := None;
      if u.body.stopReason != "" {
        finish := FinishFromStop(u.body.stopReason);
      }
      if u.body.usage.Some? {
        complTok := u.body.usage.value.completion;
        if u.body.usage.value.prompt > 0 {
          promptTok := u.body.usage.value.prompt;
        }
      }
    }

    /** The end of the message, regular or by an error; only the first one counts. */
    method FeedEnd(u: Upstream, delta: Delta, reason: string) returns (chunk: Option<Chunk>)
      requires Tracks(consumed)
      requires u.body.MessageStop? || u.body.Failure?
      requires u.body.MessageStop? ==> delta == NO_DELTA && reason == finish
      requires u.body.Failure? ==> delta == Delta(ErrorText(u.body.message), "", []) && reason == "stop"
      modifies this`finishSent, this`roleSent
      ensures Tracks(consumed + [u]) && Produces(consumed, u, model, chunk)
    {
      hide Follow, ToolStarts, LatestStart, FinishAfter, Announced, Ended;
      FollowOn(View(), consumed, u);
      Followed(View(), consumed, 0);
      chunk := None;
      if !finishSent {
        finishSent := true;
        if u.body.Failure? {
          roleSent := true;
        }
        chunk := Some(ChunkOf(delta, InProcess(reason)));
      }
    }

    /** The usage counted so far. */
    method CountedUsage() returns (usage: Option<Usage>)
      requires Valid()
      ensures usage == if TokensAfter(consumed) == Usage(0, 0) then None else Some(TokensAfter(consumed))
    {
      usage := if promptTok == 0 && complTok == 0 then None else Some(Usage(promptTok, complTok));
    }
  }

  lemma EndedSnoc(us: seq<Upstream>, u: Upstream)
    ensures Ended(us + [u]) <==> Ended(us) || u.body.MessageStop? || u.body.Failure?
  {
    if Ended(us) {
      var x :| x in us && (x.body.MessageStop? || x.body.Failure?);
      assert x in us + [u];
    }
    assert u in us + [u];
  }
}
