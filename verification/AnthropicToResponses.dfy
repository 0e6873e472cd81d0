/** An Anthropic upstream bridged to a Responses client: the two state machines composed. */
module AnthropicToResponses {
  import opened Wrappers
  import opened Chat
  import opened AnthropicIn
  import opened ResponsesReply
  import RC = ResponsesClient
  import A = AnthropicCalls
  import opened ResponsesOut
  import opened ResponsesTools
  import opened ResponsesToolWriter

  /** The model named by the last chunk that was produced. */
  function SpokenModel(initial: string, us: seq<Upstream>): string {
    if us == [] then initial
    else
      var us0 := us[..|us| - 1];
      var m := ModelOf(initial, us);
      if Emits(us0, us[|us| - 1]) && m != "" then m else SpokenModel(initial, us0)
  }

  /** What the client must read. The finish reason of the upstream never reaches the
      emitter, because an in-process chunk carries it in a form the emitter does not see;
      nor does the usage, because these chunks carry none. */
  function BridgedReply(model: string, us: seq<Upstream>): RC.Client {
    Answer(Sayings(us), SpokenModel(model, us), "stop", Usage(0, 0))
  }

  /** For every sequence of upstream events, truncated and malformed ones included, the
      client reads a well-formed reply that holds exactly what the events said. */
  method BridgeAnthropic(model: string, us: seq<Upstream>) returns (events: seq<RC.Event>, usage: Option<Usage>)
    ensures RC.Read(events) == Some(BridgedReply(model, us))
    ensures usage == if TokensAfter(us) == Usage(0, 0) then None else Some(TokensAfter(us))
  {
    hide RC.Read, Sayings, Answer, TokensAfter, Emits, ModelOf, Order, Produces, Finishing, ChunkPieces;
    var source := new AnthropicInState(model);
    var sink := new ResponsesOutState(model);
    Nothing(model);
    for i := 0 to |us|
      invariant source.Valid() && source.consumed == us[..i] && source.initial == model
      invariant sink.Valid() && !sink.finishSent && sink.finish == "stop"
      invariant sink.heard == Sayings(us[..i]) && sink.model == SpokenModel(model, us[..i])
      invariant Usage(sink.promptTok, sink.complTok) == Usage(0, 0)
    {
      assert us[..i + 1] == us[..i] + [us[i]];
      assert us[..i + 1][..i] == us[..i];
      OneMoreSaid(model, us[..i], us[i]);
      var chunk := source.Feed(us[i]);
      NeverFinishes(us[..i], us[i], source.model, chunk);
      if chunk.Some? {
        var _, _ := sink.Feed(chunk.value);
      }
    }
    assert us[..|us|] == us;
    sink.FinishStream();
    usage := source.CountedUsage();
    return sink.written, usage;
  }

  /** No in-process chunk finishes the emitter. */
  lemma NeverFinishes(us: seq<Upstream>, u: Upstream, model: string, chunk: Option<Chunk>)
    requires Produces(us, u, model, chunk)
    ensures chunk.Some? <==> Emits(us, u)
    ensures chunk.Some? ==>
      && !Finishing(chunk.value)
      && ChunkPieces(chunk.value) == Saying(us, u)
      && chunk.value.model == model && chunk.value.usage == None
  {
  }

  lemma Nothing(model: string)
    ensures Sayings([]) == [] && SpokenModel(model, []) == model
  {
  }

  lemma OneMoreSaid(model: string, us: seq<Upstream>, u: Upstream)
    ensures Sayings(us + [u]) == Sayings(us) + Saying(us, u)
    ensures
      var m := ModelOf(model, us + [u]);
      SpokenModel(model, us + [u]) == if Emits(us, u) && m != "" then m else SpokenModel(model, us)
    ensures !Emits(us, u) ==> Saying(us, u) == []
  {
    assert (us + [u])[..|us|] == us;
  }

  /** The same bridge towards a client with bridged tools. */
  method BridgeAnthropicWithTools(model: string, us: seq<Upstream>, ds: seq<ToolDecl>,
                                  hash: (Identity, nat) -> string, decode: string -> string)
    returns (sent: seq<RC.Event>, tools: Tools, byIdentity: map<Identity, string>)
    requires Salted(hash) && InputDecoder(decode)
    ensures Proper(tools, byIdentity, Names(ds), hash)
    ensures forall id :: id in Ids(Declared(ds, "")) <==> id in byIdentity
    ensures RC.Read(sent) == Some(Image(tools, BridgedReply(model, us)))
  {
    hide Answer, Image, RC.Read;
    var events, _ := BridgeAnthropic(model, us);
    AnswerPlain(Sayings(us), SpokenModel(model, us), "stop", Usage(0, 0));
    sent, tools, byIdentity := SendBridged(ds, hash, decode, events);
  }

  // ---- What the reply holds, in terms of the upstream's own blocks ----

  /** The text of the message: its text parts, and the report of a first failure. */
  function SourceText(us: seq<Upstream>): string {
    if us == [] then ""
    else
      var us0, b := us[..|us| - 1], us[|us| - 1].body;
      SourceText(us0) + match b
        case TextPart(_, text) => text
        case Failure(message) =>
          if Ended(us0) then ""
          else "[Error] " + if message != "" then message else "upstream error"
        case _ => ""
  }

  /** The reasoning of the message. */
  function SourceThought(us: seq<Upstream>): string {
    if us == [] then ""
    else
      var b := us[|us| - 1].body;
      SourceThought(us[..|us| - 1]) + if b.ThinkingPart? then b.thinking else ""
  }

  /** The argument fragments of one block. */
  function BlockArgs(us: seq<Upstream>, b: int): string {
    if us == [] then ""
    else
      var last := us[|us| - 1].body;
      BlockArgs(us[..|us| - 1], b) + if last.JsonPart? && last.index == b then last.fragment else ""
  }

  /** Argument fragments come after the start of their block, and no tool block starts twice. */
  predicate Orderly(us: seq<Upstream>) {
    us == [] ||
    var us0, u := us[..|us| - 1], us[|us| - 1];
    && Orderly(us0)
    && (u.body.JsonPart? ==> LatestStart(us0, u.body.index).Some?)
    && (IsToolStart(u) ==> LatestStart(us0, u.body.index).None?)
  }

  /** The event that began a block. */
  function StartOf(us: seq<Upstream>, b: int): (start: Upstream)
    requires LatestStart(us, b).Some?
    ensures IsToolStart(start) && start.body.index == b
  {
    var u := us[|us| - 1];
    if IsToolStart(u) && u.body.index == b then u else StartOf(us[..|us| - 1], b)
  }

  lemma {:induction false} TextAgrees(us: seq<Upstream>)
    ensures Content(Sayings(us), MessageKey) == SourceText(us)
  {
    if us != [] {
      var us0, u := us[..|us| - 1], us[|us| - 1];
      TextAgrees(us0);
      ContentSaying(us0, u, MessageKey);
    }
  }

  lemma {:induction false} ThoughtAgrees(us: seq<Upstream>)
    ensures Content(Sayings(us), ThoughtKey) == SourceThought(us)
  {
    if us != [] {
      var us0, u := us[..|us| - 1], us[|us| - 1];
      ThoughtAgrees(us0);
      ContentSaying(us0, u, ThoughtKey);
    }
  }

  /** Each event says at most one thing. */
  lemma ContentSaying(us: seq<Upstream>, u: Upstream, k: Key)
    ensures |Saying(us, u)| <= 1
    ensures Saying(us, u) == [] ==> Sayings(us) + Saying(us, u) == Sayings(us)
    ensures Saying(us, u) != [] ==>
      var p := Saying(us, u)[0];
      var ps := Sayings(us) + Saying(us, u);
      && ps == Sayings(us) + [p]
      && Content(ps, k) == Content(Sayings(us), k) + (if KeyOf(p) == k then Said(p) else "")
      && Order(ps) == (if KeyOf(p) in Order(Sayings(us)) then Order(Sayings(us)) else Order(Sayings(us)) + [KeyOf(p)])
  {
    if Saying(us, u) != [] {
      Snoc(Sayings(us), Saying(us, u)[0]);
    }
  }

  /** Blocks that have begun have numbers of their own, below the number of starts. */
  lemma {:induction false} StartsInjective(us: seq<Upstream>, b: int, c: int)
    requires LatestStart(us, b).Some?
    ensures LatestStart(us, b).value < ToolStarts(us)
    ensures b != c && LatestStart(us, c).Some? ==> LatestStart(us, b) != LatestStart(us, c)
  {
    var us0, u := us[..|us| - 1], us[|us| - 1];
    if LatestStart(us0, b).Some? { StartsInjective(us0, b, c); }
    if LatestStart(us0, c).Some? { StartsInjective(us0, c, b); }
  }

  /** A block that has not begun has no fragments, and no tool beyond the begun ones speaks. */
  lemma {:induction false} NothingBefore(us: seq<Upstream>, b: int)
    requires Orderly(us)
    ensures LatestStart(us, b).None? ==> BlockArgs(us, b) == ""
    ensures forall k :: CallKey(k) in Order(Sayings(us)) ==> k < ToolStarts(us)
  {
    if us != [] {
      var us0, u := us[..|us| - 1], us[|us| - 1];
      NothingBefore(us0, b);
      ContentSaying(us0, u, MessageKey);
      if u.body.JsonPart? { StartsInjective(us0, u.body.index, u.body.index); }
    }
  }

  /** In an orderly message every tool block becomes one call, with the block's own id and
      name, whose arguments are the fragments of that block in order. */
  lemma {:induction false} BlockBecomesCall(us: seq<Upstream>, b: int)
    requires Orderly(us) && LatestStart(us, b).Some?
    ensures
      var k, ps, start := LatestStart(us, b).value, Sayings(us), StartOf(us, b);
      && CallKey(k) in Order(ps)
      && Content(ps, CallKey(k)) == BlockArgs(us, b)
      && Opener(ps, k) == ToolEntry(k, FirstNonEmpty(start.body.id, start.clock), start.clock,
                                    Trunc(start.body.name, 128), "")
  {
    var us0, u := us[..|us| - 1], us[|us| - 1];
    var k, ps0 := LatestStart(us, b).value, Sayings(us0);
    ContentSaying(us0, u, CallKey(k));
    if IsToolStart(u) && u.body.index == b {
      NothingBefore(us0, b);
      assert CallKey(k) !in Order(ps0);
      Unheard(ps0, CallKey(k));
      assert (ps0 + Saying(us0, u))[..|ps0|] == ps0;
    } else {
      BlockBecomesCall(us0, b);
      if u.body.JsonPart? { StartsInjective(us0, b, u.body.index); }
      if IsToolStart(u) { StartsInjective(us0, b, b); }
      if Saying(us0, u) != [] {
        Snoc(ps0, Saying(us0, u)[0]);
      }
    }
  }

  /** Every number below the number of starts was given to a block. */
  lemma {:induction false} StartsSurjective(us: seq<Upstream>, k: nat)
    requires Orderly(us) && k < ToolStarts(us)
    ensures exists b :: LatestStart(us, b) == Some(k)
  {
    var us0, u := us[..|us| - 1], us[|us| - 1];
    if k < ToolStarts(us0) {
      StartsSurjective(us0, k);
      var b :| LatestStart(us0, b) == Some(k);
      assert LatestStart(us, b) == Some(k);
    } else {
      assert LatestStart(us, u.body.index) == Some(k);
    }
  }

  function Upto(n: nat): (r: seq<int>)
    ensures |r| == n && forall k :: 0 <= k < n ==> r[k] == k
  {
    if n == 0 then [] else Upto(n - 1) + [n - 1]
  }

  /** An event says something of a new call exactly if it begins a tool block. */
  lemma NewCallsBegin(us: seq<Upstream>, u: Upstream)
    requires Orderly(us + [u])
    ensures forall p <- Saying(us, u) :: p.Call? && IsToolStart(u) ==> p.entry.index == ToolStarts(us)
    ensures forall p <- Saying(us, u) :: p.Call? && !IsToolStart(u) ==> 0 <= p.entry.index < ToolStarts(us)
    ensures IsToolStart(u) ==> Saying(us, u) != [] && Saying(us, u)[0].Call?
  {
    assert (us + [u])[..|us|] == us;
    if u.body.JsonPart? {
      StartsInjective(us, u.body.index, u.body.index);
    }
  }

  /** A number stands for a call exactly if some block was given it. */
  lemma NumberedExactly(us: seq<Upstream>, k: nat)
    requires Orderly(us)
    ensures k < ToolStarts(us) <==> exists b :: LatestStart(us, b) == Some(k)
  {
    if k < ToolStarts(us) {
      StartsSurjective(us, k);
    } else {
      forall b ensures LatestStart(us, b) != Some(k) {
        if LatestStart(us, b).Some? {
          StartsInjective(us, b, b);
        }
      }
    }
  }

  /** The calls of an orderly message are its tool blocks, in the order in which they began,
      and there are no other calls. */
  lemma {:induction false} CallsAreBlocks(us: seq<Upstream>)
    requires Orderly(us)
    ensures A.Calls(Sayings(us)) == Upto(ToolStarts(us))
  {
    if us == [] {
      assert A.Calls([]) == [];
    } else {
      var us0, u := us[..|us| - 1], us[|us| - 1];
      CallsAreBlocks(us0);
      hide A.Calls, Saying;
      assert us == us0 + [u];
      ContentSaying(us0, u, MessageKey);
      NewCallsBegin(us0, u);
      if Saying(us0, u) != [] {
        var p := Saying(us0, u)[0];
        A.CallsSnoc(Sayings(us0), p);
        if p.Call? && !IsToolStart(u) {
          assert Upto(ToolStarts(us0))[p.entry.index] == p.entry.index;
        }
      }
    }
  }

  // ---- What is lost on the way ----

  /** The reply tells truthfully whether it was cut short exactly if it was not, and reports
      the tokens counted exactly if none were. */
  lemma StatusAndTokensExactly(model: string, us: seq<Upstream>)
    ensures BridgedReply(model, us).reply.value.incomplete == (FinishAfter(us) == "length")
            <==> FinishAfter(us) != "length"
    ensures BridgedReply(model, us).reply.value.usage == TokensAfter(us) <==> TokensAfter(us) == Usage(0, 0)
  {
  }

  /** A reply cut short by the upstream is reported as complete. */
  lemma TruncationIsLost(model: string)
    ensures
      var us := [Upstream("", "", MessageDelta("max_tokens", None)), Upstream("", "", MessageStop)];
      FinishAfter(us) == "length" && !BridgedReply(model, us).reply.value.incomplete
  {
    var u := Upstream("", "", MessageDelta("max_tokens", None));
    var us := [u, Upstream("", "", MessageStop)];
    assert us[..1] == [u];
    assert [u][..0] == [];
  }
}
