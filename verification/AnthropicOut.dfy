/** The emitter of the Anthropic protocol: chat chunks in, Anthropic events out. */
module AnthropicOut {
  import opened Wrappers
  import opened Chat
  import opened AnthropicClient
  import opened AnthropicReply

  /** The kind of the open content block. */
  datatype BlockKind = NoBlock | TextKind | ThinkingKind | ToolKind

  function KindOfBlock(b: Block): BlockKind {
    match b
    case TextBlock => TextKind
    case ThinkingBlock => ThinkingKind
    case ToolUse(_, _) => ToolKind
  }

  /** The kind of block that is open after some pieces. */
  function OpenKind(ps: seq<Piece>): BlockKind {
    if Parts(ps) == [] then NoBlock else KindOfBlock(Last(Parts(ps)).block)
  }

  /** What a tool entry makes of the blocks. */
  lemma EntrySays(ps: seq<Piece>, e: ToolEntry)
    ensures
      var before, after := Parts(ps), Parts(ps + [Call(e)]);
      var blocks := if e.name != "" then before + [Part(Opening(e), "")] else before;
      && (e.name != "" || OpenKind(ps) == ToolKind ==>
            && blocks != [] && after == (if e.args != "" then Extended(blocks, e.args) else blocks)
            && |after| == |blocks| && after != [] && KindOf(blocks[|blocks| - 1].block) == InputJsonDelta
            && OpenKind(ps + [Call(e)]) == ToolKind && (Orderly(ps + [Call(e)]) <==> Orderly(ps)))
      && (e.name == "" && OpenKind(ps) != ToolKind ==>
            && after == before && OpenKind(ps + [Call(e)]) == OpenKind(ps)
            && (Orderly(ps + [Call(e)]) <==> Orderly(ps) && e.args == ""))
    ensures OpenKind(ps) == NoBlock <==> Parts(ps) == []
    ensures OpenKind(ps + [Call(e)]) == NoBlock <==> Parts(ps + [Call(e)]) == []
    ensures OpenKind(ps) != ToolKind && Parts(ps) != [] ==> KindOf(Last(Parts(ps)).block) != InputJsonDelta
  {
    hide Parts, Orderly;
    PartsSnoc(ps, Call(e));
    FillFresh(Parts(ps), Opening(e), e.args);
    if Parts(ps) != [] {
      ExtendNothing(Parts(ps));
    }
  }

  /** What a piece of text or reasoning makes of the blocks. */
  lemma PieceSays(ps: seq<Piece>, p: Piece, block: Block, s: string)
    requires (p == Text(s) && block == TextBlock) || (p == Thought(s) && block == ThinkingBlock)
    ensures
      var kind, before, after := KindOfBlock(block), Parts(ps), Parts(ps + [p]);
      var blocks := if OpenKind(ps) == kind then before else before + [Part(block, "")];
      && blocks != [] && after == Extended(blocks, s) && |after| == |blocks| && after != []
      && KindOf(blocks[|blocks| - 1].block) == KindOf(block)
      && OpenKind(ps + [p]) == kind && (Orderly(ps + [p]) <==> Orderly(ps))
    ensures OpenKind(ps) == NoBlock <==> Parts(ps) == []
  {
    hide Parts, Orderly;
    PartsSnoc(ps, p);
    FillFresh(Parts(ps), block, s);
  }

  class AnthropicOutState {
    var model: string
    var started: bool
    var blockIndex: nat
    var curKind: BlockKind
    /** Kept by the emitter, read by nobody. */
    var curToolIdx: int
    var toolBlocks: map<int, nat>
    var finish: string
    var finishSent: bool
    var promptTok: int
    var complTok: int
    /** The events written so far, the pieces they stand for, and the head they began with. */
    var written: seq<Event>
    ghost var heard: seq<Piece>
    ghost var head: Head

    ghost predicate Broken()
      reads this
    {
      Read(written).None?
    }

    /** Started and not finished: the reader has read exactly the pieces heard, and the
        block being filled is the last one. */
    ghost predicate Flowing()
      reads this
    {
      && started && !finishSent
      && curKind == OpenKind(heard)
      && blockIndex == (if curKind == NoBlock then 0 else |Parts(heard)| - 1)
      && (Orderly(heard) ==> Read(written) == Some(Reading(head, Parts(heard), Parts(heard) != [])))
      && (!Orderly(heard) ==> Broken())
    }

    ghost predicate Valid()
      reads this
    {
      if !started then !finishSent && written == [] && heard == [] && curKind == NoBlock && blockIndex == 0
      else if finishSent then Broken() || (Read(written).value.Stopped? && curKind == NoBlock)
      else Flowing()
    }

    constructor (model: string)
      ensures Valid() && !started && !finishSent && written == [] && heard == []
      ensures this.model == model && finish == "stop" && promptTok == 0 && complTok == 0
    {
      this.model, started, blockIndex, curKind := model, false, 0, NoBlock;
      curToolIdx, toolBlocks := -1, map[];
      finish, finishSent, promptTok, complTok := "stop", false, 0, 0;
      written, heard, head := [], [], Head("", 0);
    }

    method Write(e: Event)
      modifies this`written
      ensures written == old(written) + [e]
      ensures Read(written) == if old(Broken()) then None else Step(Read(old(written)).value, e)
    {
      ReadSnoc(written, e);
      written := written + [e];
    }

    method Start()
      requires Valid()
      modifies this`started, this`written, this`head
      ensures Valid() && started
      ensures if old(started) then written == old(written) && head == old(head) else head == Head(model, promptTok)
      ensures !old(started) ==> Flowing()
    {
      if started {
        return;
      }
      started := true;
      Write(MessageStart(model, promptTok));
      head := Head(model, promptTok);
    }

    /** Closes the open block; afterwards the next block would be number `blockIndex`. */
    method CloseBlock()
      modifies this`blockIndex, this`curKind, this`curToolIdx, this`written
      ensures curKind == NoBlock
      ensures old(curKind) == NoBlock ==> written == old(written) && blockIndex == old(blockIndex)
      ensures old(curKind) != NoBlock ==>
                written == old(written) + [BlockStop(old(blockIndex))] && blockIndex == old(blockIndex) + 1
      ensures old(Flowing()) && Orderly(heard) ==>
                Read(written) == Some(Reading(head, Parts(heard), false)) && blockIndex == |Parts(heard)|
      ensures old(Flowing()) ==> blockIndex == |Parts(heard)|
      ensures old(Broken()) ==> Broken()
    {
      hide Parts, Orderly;
      if curKind == NoBlock {
        return;
      }
      Write(BlockStop(blockIndex));
      blockIndex := blockIndex + 1;
      curKind := NoBlock;
      curToolIdx := -1;
    }

    /** Opens a block unless one of its kind is open. */
    method Switch(kind: BlockKind, block: Block)
      requires Valid() && started && kind == KindOfBlock(block)
      modifies this`blockIndex, this`curKind, this`curToolIdx, this`written
      ensures curKind == kind
      ensures finishSent || !Orderly(heard) ==> Broken()
      ensures
        var blocks := if OpenKind(heard) == kind then Parts(heard) else Parts(heard) + [Part(block, "")];
        !finishSent ==>
          && blockIndex == |blocks| - 1
          && (Orderly(heard) ==> Read(written) == Some(Reading(head, blocks, true)))
    {
      hide Parts, Orderly, Extended;
      if curKind != kind {
        CloseBlock();
        curKind := kind;
        Write(BlockStart(blockIndex, block));
      }
    }

    /** Writes a text or reasoning delta, opening a block of its kind first if another one is open. */
    method Say(kind: BlockKind, block: Block, s: string, ghost p: Piece)
      requires Valid() && started && s != ""
      requires kind == KindOfBlock(block)
      requires (p == Text(s) && block == TextBlock) || (p == Thought(s) && block == ThinkingBlock)
      modifies this`blockIndex, this`curKind, this`curToolIdx, this`written, this`heard
      ensures Valid()
      ensures !finishSent ==> heard == old(heard) + [p]
      ensures finishSent ==> heard == old(heard) && Broken()
    {
      hide Parts, Orderly, OpenKind, Extended;
      PieceSays(heard, p, block, s);
      Switch(kind, block);
      Write(BlockDelta(blockIndex, KindOf(block), s));
      if !finishSent {
        heard := heard + [p];
      }
    }

    /** Announces a tool's block. */
    method OpenTool(e: ToolEntry)
      requires Valid() && started
      modifies this`blockIndex, this`curKind, this`curToolIdx, this`toolBlocks, this`written
      ensures curKind == ToolKind
      ensures finishSent || (!finishSent && !Orderly(heard)) ==> Broken()
      ensures !finishSent ==> blockIndex == |Parts(heard)|
      ensures !finishSent && Orderly(heard) ==>
                Read(written) == Some(Reading(head, Parts(heard) + [Part(Opening(e), "")], true))
    {
      hide Parts, Orderly;
      CloseBlock();
      curKind := ToolKind;
      curToolIdx := e.index;
      toolBlocks := toolBlocks[e.index := blockIndex];
      Write(BlockStart(blockIndex, Opening(e)));
    }

    method FeedEntry(e: ToolEntry)
      requires Valid() && started
      modifies this`blockIndex, this`curKind, this`curToolIdx, this`toolBlocks, this`written, this`heard
      ensures Valid()
      ensures !finishSent ==> heard == old(heard) + [Call(e)]
      ensures finishSent ==> heard == old(heard)
      ensures finishSent && (e.name != "" || e.args != "" || old(Broken())) ==> Broken()
      ensures finishSent && e.name == "" && e.args == "" ==> written == old(written)
    {
      hide Parts, Orderly, Opening, OpenKind, Extended;
      EntrySays(heard, e);
      if e.name != "" {
        OpenTool(e);
      }
      if e.args != "" {
        Write(BlockDelta(blockIndex, InputJsonDelta, e.args));
      }
      if !finishSent {
        heard := heard + [Call(e)];
      }
    }
  
    method FeedEntries(entries: seq<ToolEntry>)
      requires Valid() && started
      modifies this`blockIndex, this`curKind, this`curToolIdx, this`toolBlocks, this`written, this`heard
      ensures Valid()
      ensures !finishSent ==> heard == old(heard) + CallPieces(entries)
      ensures finishSent ==> heard == old(heard)
      ensures finishSent && (old(Broken()) || exists e <- entries :: e.name != "" || e.args != "") ==> Broken()
      ensures finishSent && (forall e <- entries :: e.name == "" && e.args == "") ==> written == old(written)
    {
      hide Valid, Broken;
      for n := 0 to |entries|
        invariant Valid() && started
        invariant !finishSent ==> heard == old(heard) + CallPieces(entries)[..n]
        invariant finishSent ==> heard == old(heard)
        invariant finishSent && old(Broken()) ==> Broken()
        invariant finishSent && (exists i :: 0 <= i < n && (entries[i].name != "" || entries[i].args != "")) ==>
                    Broken()
        invariant finishSent && (forall i :: 0 <= i < n ==> entries[i].name == "" && entries[i].args == "") ==>
                  written == old(written)
      {
        FeedEntry(entries[n]);
      }
      assert CallPieces(entries)[..|entries|] == CallPieces(entries);
    }

    method FeedDelta(d: Delta)
      requires Valid() && started
      modifies this`blockIndex, this`curKind, this`curToolIdx, this`toolBlocks, this`written, this`heard
      ensures Valid()
      ensures !finishSent ==> heard == old(heard) + DeltaPieces(d)
      ensures finishSent ==> heard == old(heard)
      ensures finishSent && (old(Broken()) || !SaysNothing(d)) ==> Broken()
      ensures finishSent && SaysNothing(d) ==> written == old(written)
    {
      hide Valid, Broken;
      if d.content != "" {
        Say(TextKind, TextBlock, d.content, Text(d.content));
      }
      if d.reasoning != "" {
        Say(ThinkingKind, ThinkingBlock, d.reasoning, Thought(d.reasoning));
      }
      FeedEntries(d.toolCalls);
    }

    /** Ends the stream, once: the last block is closed and the message is stopped. */
    method FinishStream()
      requires Valid()
      modifies this`started, this`head, this`blockIndex, this`curKind, this`curToolIdx, this`written, this`finishSent
      ensures Valid() && started && finishSent
      ensures old(finishSent) ==> written == old(written)
      ensures !old(finishSent) && Orderly(heard) ==>
                Read(written) == Some(Stopped(head, Parts(heard), StopFromFinish(finish), Usage(promptTok, complTok)))
      ensures head == if old(started) then old(head) else Head(model, promptTok)
      ensures !old(finishSent) && !Orderly(heard) ==> Broken()
    {
      hide Parts, Orderly;
      if finishSent {
        return;
      }
      Start();
      CloseBlock();
      finishSent := true;
      Write(MessageDelta(StopFromFinish(finish), Usage(promptTok, complTok)));
      Write(MessageStop);
    }

    /** Takes note of what a chunk says about the whole message. */
    method Note(chunk: Chunk)
      requires Valid()
      modifies this`model, this`promptTok, this`complTok, this`finish
      ensures Valid()
      ensures model == if chunk.model != "" then chunk.model else old(model)
      ensures Usage(promptTok, complTok) ==
        if chunk.usage.Some? then chunk.usage.value else old(Usage(promptTok, complTok))
      ensures finish == if Finishing(chunk) then FinishFromOpenAI(FinishOf(chunk)) else old(finish)
    {
      hide Parts, Orderly, OpenKind, Read, FinishFromOpenAI;
      if chunk.model != "" {
        model := chunk.model;
      }
      if chunk.usage.Some? {
        promptTok, complTok := chunk.usage.value.prompt, chunk.usage.value.completion;
      }
      if chunk.choice.Some? {
        var reason := FinishString(chunk.choice.value.finish);
        if reason != "" {
          finish := FinishFromOpenAI(reason);
        }
      }
    }

    /** Consumes one chat chunk. */
    method Feed(chunk: Chunk) returns (usage: Option<Usage>, done: bool)
      requires Valid()
      modifies this
      ensures Valid()
      ensures usage == chunk.usage && done == Finishing(chunk)
      ensures model == if chunk.model != "" then chunk.model else old(model)
      ensures Usage(promptTok, complTok) ==
        if chunk.usage.Some? then chunk.usage.value else old(Usage(promptTok, complTok))
      ensures finish == if Finishing(chunk) then FinishFromOpenAI(FinishOf(chunk)) else old(finish)
      ensures started == (old(started) || chunk.choice.Some?)
      ensures head == if !old(started) && started then Head(model, promptTok) else old(head)
      ensures finishSent == (old(finishSent) || Finishing(chunk))
      ensures !old(finishSent) ==> heard == old(heard) + ChunkPieces(chunk)
      ensures old(finishSent) ==> heard == old(heard)
      ensures !old(finishSent) && finishSent && Orderly(heard) ==>
                Read(written) == Some(Stopped(head, Parts(heard), StopFromFinish(finish), Usage(promptTok, complTok)))
      ensures !old(finishSent) && finishSent && !Orderly(heard) ==> Broken()
      ensures old(finishSent) && (old(Broken()) || !Inert(chunk)) ==> Broken()
      ensures old(finishSent) && Inert(chunk) ==> written == old(written)
    {
      hide Flowing, Parts, Orderly, Read, FinishFromOpenAI, DeltaPieces, SaysNothing;
      Note(chunk);
      usage := chunk.usage;
      if chunk.choice.None? {
        return usage, false;
      }
      Start();
      FeedDelta(chunk.choice.value.delta);
      done := Finishing(chunk);
      if done {
        FinishStream();
      }
    }
  }

  /** Nothing was said between the finishing chunk and chunk `i`. */
  ghost predicate QuietTo(cs: seq<Chunk>, i: nat)
    requires i <= |cs|
  {
    forall j :: FinishIndex(cs) < j < i ==> Inert(cs[j])
  }

  ghost predicate Unfinished(st: AnthropicOutState, model: string, cs: seq<Chunk>)
    reads st
  {
    && !st.finishSent
    && st.heard == Pieces(cs)
    && st.model == LastModel(model, cs)
    && Usage(st.promptTok, st.complTok) == LastUsage(cs)
    && st.finish == "stop"
    && st.started == Chosen(cs)
    && (st.started ==> st.head == HeadOf(model, cs))
    && (!st.started ==> Prelude(cs) == cs)
  }

  /** Upstream chat chunks to a Messages client. The client gets a well-formed stream if and
      only if nothing is said after the finishing chunk and every fragment of arguments comes
      while a tool's block is open; then it reads back exactly the reply the chunks amount to. */
  method BridgeChatChunks(model: string, chunks: seq<Chunk>) returns (events: seq<Event>, lastUsage: Option<Usage>)
    ensures Read(events) ==
      if Quiet(chunks) && Orderly(Pieces(Heard(chunks))) then Some(ReplyTo(model, chunks)) else None
    ensures lastUsage == Billed(chunks)
  {
    hide Read, Pieces, LastModel, LastUsage, Inert, Orderly, Parts, QuietTo;
    hide Prelude, Chosen, Finishing, FinishFromOpenAI;
    hide StopFromFinish, ChunkPieces, FinishOf, Quiet, FinalFinish;
    var st := new AnthropicOutState(model);
    lastUsage := None;
    ghost var n := FinishIndex(chunks);
    EmptyStream(model);
    for i := 0 to |chunks|
      invariant st.Valid()
      invariant lastUsage == Billed(chunks[..i])
      invariant i <= n ==> Unfinished(st, model, chunks[..i])
      invariant i > n ==> st.finishSent
      invariant i > n && QuietTo(chunks, i) && Orderly(Pieces(Heard(chunks))) ==>
                Read(st.written) == Some(ReplyTo(model, chunks))
      invariant i > n && !(QuietTo(chunks, i) && Orderly(Pieces(Heard(chunks)))) ==> st.Broken()
    {
      assert chunks[..i + 1] == chunks[..i] + [chunks[i]];
      assert chunks[..i + 1][..i] == chunks[..i];
      PiecesSnoc(chunks[..i], chunks[i]);
      PreludeSnoc(chunks[..i], chunks[i]);
      AtFinish(model, chunks, i);
      AfterFinish(chunks, i);
      var usage, done := st.Feed(chunks[i]);
      if usage.Some? {
        lastUsage := usage;
      }
    }
    assert chunks[..|chunks|] == chunks;
    NeverFinished(model, chunks);
    st.FinishStream();
    return st.written, lastUsage;
  }

  lemma EmptyStream(model: string)
    ensures Pieces([]) == [] && LastUsage([]) == Usage(0, 0) && LastModel(model, []) == model
    ensures Prelude([]) == [] && !Chosen([])
  {
  }

  lemma AtFinish(model: string, cs: seq<Chunk>, i: nat)
    requires i < |cs|
    ensures i < FinishIndex(cs) ==> !Finishing(cs[i])
    ensures i == FinishIndex(cs) ==>
      && Finishing(cs[i])
      && cs[i].choice.Some?
      && Heard(cs) == cs[..i + 1]
      && QuietTo(cs, i + 1)
      && FinalFinish(cs) == FinishFromOpenAI(FinishOf(cs[i]))
  {
  }

  lemma AfterFinish(cs: seq<Chunk>, i: nat)
    requires i < |cs|
    ensures i > FinishIndex(cs) ==> (QuietTo(cs, i + 1) <==> QuietTo(cs, i) && Inert(cs[i]))
  {
    hide FinishIndex, Inert;
  }

  lemma NeverFinished(model: string, cs: seq<Chunk>)
    ensures QuietTo(cs, |cs|) == Quiet(cs)
    ensures FinishIndex(cs) == |cs| ==> Quiet(cs) && Heard(cs) == cs && FinalFinish(cs) == "stop"
  {
  }
}
