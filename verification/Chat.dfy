/** Chat completion chunks: the pivot that every stream of the relay passes through.

    A field of a JSON object that is absent, or of another JSON type than the one the
    code asserts, is represented by the value the failed assertion yields. */
module Chat {
  import opened Wrappers

  /** The `finish_reason` of a choice. A chunk read from the wire carries a string; a
      chunk built inside the process carries a string pointer, for which the emitters'
      assertion to `string` fails. */
  datatype FinishReason = Absent | Wire(reason: string) | InProcess(reason: string)

  /** One entry of `delta.tool_calls`. `clockId` is the identifier that would be
      generated, when this entry is read, for an entry that carries none. */
  datatype ToolEntry = ToolEntry(index: int, id: string, clockId: string, name: string, args: string)

  datatype Delta = Delta(content: string, reasoning: string, toolCalls: seq<ToolEntry>)

  datatype Usage = Usage(prompt: int, completion: int)

  datatype Choice = Choice(finish: FinishReason, delta: Delta)

  datatype Chunk = Chunk(model: string, usage: Option<Usage>, choice: Option<Choice>)

  const NO_DELTA := Delta("", "", [])

  /** What the type assertion on `finish_reason` yields. */
  function FinishString(f: FinishReason): string {
    if f.Wire? then f.reason else ""
  }

  function FinishOf(c: Chunk): string {
    if c.choice.Some? then FinishString(c.choice.value.finish) else ""
  }

  predicate Finishing(c: Chunk) {
    FinishOf(c) != ""
  }

  function FinishFromOpenAI(reason: string): string {
    if reason == "length" then "length"
    else if reason == "tool_calls" || reason == "function_call" then "tool_calls"
    else "stop"
  }

  function FirstNonEmpty(a: string, b: string): string {
    if a != "" then a else b
  }

  function Trunc(s: string, n: nat): string {
    if |s| <= n then s else s[..n]
  }

  // ---- The deltas of a stream, one by one, in the order they are processed ----

  datatype Piece = Text(s: string) | Thought(s: string) | Call(entry: ToolEntry)

  function CallPieces(entries: seq<ToolEntry>): (r: seq<Piece>)
    ensures |r| == |entries|
    ensures forall i :: 0 <= i < |r| ==> r[i] == Call(entries[i])
  {
    seq(|entries|, i requires 0 <= i < |entries| => Call(entries[i]))
  }

  function DeltaPieces(d: Delta): seq<Piece> {
    (if d.content != "" then [Text(d.content)] else [])
    + (if d.reasoning != "" then [Thought(d.reasoning)] else [])
    + CallPieces(d.toolCalls)
  }

  function ChunkPieces(c: Chunk): seq<Piece> {
    if c.choice.Some? then DeltaPieces(c.choice.value.delta) else []
  }

  function Pieces(cs: seq<Chunk>): seq<Piece> {
    if cs == [] then [] else Pieces(cs[..|cs| - 1]) + ChunkPieces(cs[|cs| - 1])
  }

  /** The first chunk that finishes the stream; the length of the stream if none does. */
  function FinishIndex(cs: seq<Chunk>): (n: nat)
    ensures n <= |cs|
    ensures forall i :: 0 <= i < n ==> !Finishing(cs[i])
    ensures n < |cs| ==> Finishing(cs[n])
  {
    if cs == [] then 0
    else if Finishing(cs[0]) then 0
    else
      var n := FinishIndex(cs[1..]);
      assert forall i :: 0 < i < n + 1 ==> cs[i] == cs[1..][i - 1];
      n + 1
  }

  /** The chunks up to and including the one that finishes the stream. */
  function Heard(cs: seq<Chunk>): seq<Chunk> {
    var n := FinishIndex(cs);
    if n < |cs| then cs[..n + 1] else cs
  }

  /** The usage last reported. */
  function LastUsage(cs: seq<Chunk>): Usage {
    if cs == [] then Usage(0, 0)
    else if cs[|cs| - 1].usage.Some? then cs[|cs| - 1].usage.value
    else LastUsage(cs[..|cs| - 1])
  }

  /** The usage to be billed: the last one any chunk reported. */
  function Billed(cs: seq<Chunk>): Option<Usage> {
    if cs == [] then None
    else if cs[|cs| - 1].usage.Some? then cs[|cs| - 1].usage
    else Billed(cs[..|cs| - 1])
  }

  /** The model last named, `initial` before any chunk names one. */
  function LastModel(initial: string, cs: seq<Chunk>): string {
    if cs == [] then initial
    else if cs[|cs| - 1].model != "" then cs[|cs| - 1].model
    else LastModel(initial, cs[..|cs| - 1])
  }

  /** The finish state after the stream: "stop" until a chunk finishes it. */
  function FinalFinish(cs: seq<Chunk>): string {
    var n := FinishIndex(cs);
    if n < |cs| then FinishFromOpenAI(FinishOf(cs[n])) else "stop"
  }

  lemma PiecesSnoc(cs: seq<Chunk>, c: Chunk)
    ensures Pieces(cs + [c]) == Pieces(cs) + ChunkPieces(c)
    ensures LastUsage(cs + [c]) == if c.usage.Some? then c.usage.value else LastUsage(cs)
    ensures forall m :: LastModel(m, cs + [c]) == if c.model != "" then c.model else LastModel(m, cs)
  {
    assert (cs + [c])[..|cs|] == cs;
  }

  // ---- Usage, model and finish by the chunk that decides them ----

  /** The usage is that of the last chunk that reports one, number `i`; none counts as zero. */
  lemma {:induction false} UsageByIndex(cs: seq<Chunk>, i: int)
    requires -1 <= i < |cs| && (i >= 0 ==> cs[i].usage.Some?)
    requires forall j :: i < j < |cs| ==> cs[j].usage.None?
    ensures LastUsage(cs) == if i < 0 then Usage(0, 0) else cs[i].usage.value
    ensures Billed(cs) == if i < 0 then None else cs[i].usage
  {
    if i < |cs| - 1 {
      UsageByIndex(cs[..|cs| - 1], i);
    }
  }

  /** The model is the one the last chunk that names one names, or else the one asked for. */
  lemma {:induction false} ModelByIndex(initial: string, cs: seq<Chunk>, i: int)
    requires -1 <= i < |cs| && (i >= 0 ==> cs[i].model != "")
    requires forall j :: i < j < |cs| ==> cs[j].model == ""
    ensures LastModel(initial, cs) == if i < 0 then initial else cs[i].model
  {
    if i < |cs| - 1 {
      ModelByIndex(initial, cs[..|cs| - 1], i);
    }
  }
}
