/** What a reader of the Anthropic stream must end up with, said directly about the chat
    chunks, and how its blocks relate to who said what. */
module AnthropicReply {
  import opened Wrappers
  import opened Chat
  import opened AnthropicClient

  function Last(parts: seq<Part>): Part
    requires parts != []
  {
    parts[|parts| - 1]
  }

  /** Text and reasoning continue a last block of their own kind; a named tool entry opens a
      block, and an unnamed one continues the last block if that is a tool's. */
  function Grown(parts: seq<Part>, p: Piece): seq<Part> {
    match p
    case Text(s) =>
      if parts != [] && Last(parts).block.TextBlock? then Extended(parts, s) else parts + [Part(TextBlock, s)]
    case Thought(s) =>
      if parts != [] && Last(parts).block.ThinkingBlock? then Extended(parts, s) else parts + [Part(ThinkingBlock, s)]
    case Call(e) =>
      if e.name != "" then parts + [Part(Opening(e), e.args)]
      else if parts != [] && Last(parts).block.ToolUse? then Extended(parts, e.args) else parts
  }

  function Opening(e: ToolEntry): (b: Block)
    ensures b.ToolUse?
  {
    ToolUse(FirstNonEmpty(e.id, e.clockId), Trunc(e.name, 128))
  }

  function Parts(ps: seq<Piece>): seq<Part> {
    if ps == [] then [] else Grown(Parts(ps[..|ps| - 1]), ps[|ps| - 1])
  }

  /** A piece with arguments but no name. */
  predicate Fragment(p: Piece) {
    p.Call? && p.entry.name == "" && p.entry.args != ""
  }

  /** Every fragment of arguments comes while a tool's block is open. */
  predicate Orderly(ps: seq<Piece>) {
    forall i :: 0 <= i < |ps| && Fragment(ps[i]) ==> InToolBlock(ps[..i])
  }

  predicate InToolBlock(ps: seq<Piece>) {
    Parts(ps) != [] && Last(Parts(ps)).block.ToolUse?
  }

  function StopFromFinish(finish: string): string {
    if finish == "length" then "max_tokens" else if finish == "tool_calls" then "tool_use" else "end_turn"
  }

  /** The chunks up to and including the first one with a choice. */
  function Prelude(cs: seq<Chunk>): seq<Chunk> {
    if cs == [] then [] else if cs[0].choice.Some? then [cs[0]] else [cs[0]] + Prelude(cs[1..])
  }

  /** The head is fixed when the first choice arrives. */
  function HeadOf(model: string, cs: seq<Chunk>): Head {
    Head(LastModel(model, Prelude(cs)), LastUsage(Prelude(cs)).prompt)
  }

  /** The reply to a whole stream of chunks: only the chunks up to the finishing one matter. */
  function ReplyTo(model: string, cs: seq<Chunk>): Client {
    Stopped(HeadOf(model, Heard(cs)), Parts(Pieces(Heard(cs))), StopFromFinish(FinalFinish(cs)), LastUsage(Heard(cs)))
  }

  /** A delta that makes the emitter write nothing once the last block is closed. */
  predicate SaysNothing(d: Delta) {
    d.content == "" && d.reasoning == "" && forall e <- d.toolCalls :: e.name == "" && e.args == ""
  }

  predicate Inert(c: Chunk) {
    c.choice.Some? ==> SaysNothing(c.choice.value.delta)
  }

  /** Nothing is said after the chunk that finishes the stream. */
  predicate Quiet(cs: seq<Chunk>) {
    forall j :: FinishIndex(cs) < j < |cs| ==> Inert(cs[j])
  }

  /** Text after the finishing chunk. */
  lemma TextAfterTheEnd(text: string)
    requires text != ""
    ensures !Quiet([Chunk("", None, Some(Choice(Wire("stop"), NO_DELTA))),
                    Chunk("", None, Some(Choice(Absent, Delta(text, "", []))))])
  {
    var finish := Chunk("", None, Some(Choice(Wire("stop"), NO_DELTA)));
    var more := Chunk("", None, Some(Choice(Absent, Delta(text, "", []))));
    assert Finishing([finish, more][0]);
    assert !Inert([finish, more][1]);
  }

  /** A fragment of arguments without a name while a text block is open. */
  lemma FragmentInText(text: string, e: ToolEntry)
    requires text != "" && e.name == "" && e.args != ""
    ensures
      var chunks := [Chunk("", None, Some(Choice(Absent, Delta(text, "", [])))),
                     Chunk("", None, Some(Choice(Wire("stop"), Delta("", "", [e]))))];
      Quiet(chunks) && !Orderly(Pieces(Heard(chunks)))
  {
    var first := Chunk("", None, Some(Choice(Absent, Delta(text, "", []))));
    var second := Chunk("", None, Some(Choice(Wire("stop"), Delta("", "", [e]))));
    var chunks := [first, second];
    hide FinishIndex, Heard, Quiet, Orderly, Parts, Pieces;
    TwoChunks(first, second);
    PiecesSnoc([], first);
    PiecesSnoc([first], second);
    assert [] + [first] == [first] && [first] + [second] == chunks;
    assert Pieces([]) == [] && Parts([]) == [] by { NoPieces(); }
    var said, fragment := Text(text), Call(e);
    assert ChunkPieces(first) == [said] && ChunkPieces(second) == [fragment];
    assert [] + [said] == [said];
    PartsSnoc([], said);
    PartsSnoc([said], fragment);
  }

  lemma TwoChunks(first: Chunk, second: Chunk)
    requires !Finishing(first) && Finishing(second)
    ensures Quiet([first, second]) && Heard([first, second]) == [first, second]
  {
    var cs := [first, second];
    assert !Finishing(cs[0]) && Finishing(cs[1]);
    assert FinishIndex(cs) == 1;
  }

  lemma NoPieces()
    ensures Pieces([]) == [] && Parts([]) == []
  {
  }

  lemma StopByReason(reason: string)
    ensures
      var stop := StopFromFinish(FinishFromOpenAI(reason));
      && (stop == "max_tokens" <==> reason == "length")
      && (stop == "tool_use" <==> reason == "tool_calls" || reason == "function_call")
      && (stop == "end_turn" <==> reason != "length" && reason != "tool_calls" && reason != "function_call")
  {
    assert "tool_use"[0] == 't' && "end_turn"[0] == 'e';
    assert |"length"| == 6 && |"tool_calls"| == 10 && |"function_call"| == 13;
  }

  /** The stop reason by the first finish reason. */
  lemma StopReasonExactly(model: string, cs: seq<Chunk>)
    ensures
      var stop, n := ReplyTo(model, cs).stopReason, FinishIndex(cs);
      var reason := if n < |cs| then FinishOf(cs[n]) else "";
      && (stop == "max_tokens" <==> reason == "length")
      && (stop == "tool_use" <==> reason == "tool_calls" || reason == "function_call")
      && (stop == "end_turn" <==> reason != "length" && reason != "tool_calls" && reason != "function_call")
  {
    hide Parts, Pieces, HeadOf, LastUsage, FinishOf, FinishIndex, Heard, StopFromFinish, FinishFromOpenAI;
    var n := FinishIndex(cs);
    StopByReason(if n < |cs| then FinishOf(cs[n]) else "");
    assert StopFromFinish("stop") == "end_turn" && FinishFromOpenAI("") == "stop" by { Stopping(); }
  }

  lemma Stopping()
    ensures StopFromFinish("stop") == "end_turn" && FinishFromOpenAI("") == "stop"
  {
  }

  lemma PartsSnoc(ps: seq<Piece>, p: Piece)
    ensures Parts(ps + [p]) == Grown(Parts(ps), p)
    ensures Orderly(ps + [p]) == (Orderly(ps) && (Fragment(p) ==> InToolBlock(ps)))
  {
    var all := ps + [p];
    assert all[..|ps|] == ps;
    assert forall i :: 0 <= i < |ps| ==> all[i] == ps[i] && all[..i] == ps[..i];
  }

  predicate Chosen(cs: seq<Chunk>) {
    cs != [] && (cs[0].choice.Some? || Chosen(cs[1..]))
  }

  lemma {:induction false} PreludeSnoc(cs: seq<Chunk>, c: Chunk)
    ensures Prelude(cs + [c]) == if Chosen(cs) then Prelude(cs) else cs + [c]
    ensures Chosen(cs + [c]) == (Chosen(cs) || c.choice.Some?)
  {
    if cs != [] {
      assert (cs + [c])[1..] == cs[1..] + [c];
      PreludeSnoc(cs[1..], c);
    } else {
      assert [c][1..] == [];
    }
  }

  lemma FillFresh(parts: seq<Part>, block: Block, s: string)
    ensures Extended(parts + [Part(block, "")], s) == parts + [Part(block, s)]
  {
    assert (parts + [Part(block, "")])[..|parts|] == parts;
    assert "" + s == s;
  }

  lemma ExtendNothing(parts: seq<Part>)
    requires parts != []
    ensures Extended(parts, "") == parts
  {
    assert Last(parts).text + "" == Last(parts).text;
  }
}
