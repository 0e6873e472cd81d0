/** The emitter of the Responses protocol: chat chunks in, Responses events out. */
module ResponsesOut {
  import opened Wrappers
  import opened Chat
  import opened ResponsesClient
  import opened ResponsesReply

  /** A function call item under construction. */
  datatype OutTool = OutTool(itemId: ItemId, callId: string, name: string, arguments: string, outputIndex: nat)

  // ---- The item buffers against the pieces they were filled from ----

  ghost predicate SpeakerTracks(open: bool, index: nat, buf: string, ps: seq<Piece>, k: Key) {
    && (open <==> k in Order(ps))
    && (open ==> index < |Order(ps)| && Order(ps)[index] == k)
    && buf == Content(ps, k)
  }

  ghost predicate ToolTracks(t: OutTool, i: int, ps: seq<Piece>) {
    && t.outputIndex < |Order(ps)|
    && Order(ps)[t.outputIndex] == CallKey(i)
    && FunctionCall(t.itemId, t.callId, t.name, "", "", false) == AddedCall(i, Opener(ps, i))
    && t.arguments == Content(ps, CallKey(i))
  }

  ghost predicate ToolsTrack(tools: map<int, OutTool>, toolOrder: seq<int>, ps: seq<Piece>) {
    && (forall i :: i in tools <==> CallKey(i) in Order(ps))
    && (forall i :: i in tools ==> ToolTracks(tools[i], i, ps))
    && (forall i :: i in toolOrder <==> i in tools)
    && (forall a, b :: 0 <= a < b < |toolOrder| ==> toolOrder[a] != toolOrder[b])
  }

  lemma OtherSpeaker(open: bool, index: nat, buf: string, ps: seq<Piece>, p: Piece, k: Key)
    requires SpeakerTracks(open, index, buf, ps, k) && KeyOf(p) != k
    ensures SpeakerTracks(open, index, buf, ps + [p], k)
  {
    Snoc(ps, p);
  }

  lemma SameSpeaker(open: bool, index: nat, buf: string, ps: seq<Piece>, p: Piece)
    requires SpeakerTracks(open, index, buf, ps, KeyOf(p))
    requires !open ==> index == |Order(ps)|
    ensures SpeakerTracks(true, index, buf + Said(p), ps + [p], KeyOf(p))
  {
    Snoc(ps, p);
  }

  lemma OtherTool(t: OutTool, i: int, ps: seq<Piece>, p: Piece)
    requires ToolTracks(t, i, ps) && KeyOf(p) != CallKey(i)
    ensures ToolTracks(t, i, ps + [p])
  {
    Snoc(ps, p);
    assert CallKey(i) in Order(ps);
  }

  lemma NoTool(tools: map<int, OutTool>, toolOrder: seq<int>, ps: seq<Piece>, p: Piece)
    requires ToolsTrack(tools, toolOrder, ps) && !p.Call?
    ensures ToolsTrack(tools, toolOrder, ps + [p])
  {
    Snoc(ps, p);
    forall i | i in tools ensures ToolTracks(tools[i], i, ps + [p]) {
      OtherTool(tools[i], i, ps, p);
    }
  }

  lemma KnownTool(tools: map<int, OutTool>, toolOrder: seq<int>, ps: seq<Piece>, e: ToolEntry)
    requires ToolsTrack(tools, toolOrder, ps) && e.index in tools
    ensures
      var t := tools[e.index];
      ToolsTrack(tools[e.index := t.(arguments := t.arguments + e.args)], toolOrder, ps + [Call(e)])
  {
    var t := tools[e.index];
    var tools' := tools[e.index := t.(arguments := t.arguments + e.args)];
    Snoc(ps, Call(e));
    assert ToolTracks(t, e.index, ps);
    forall i | i in tools' ensures ToolTracks(tools'[i], i, ps + [Call(e)]) {
      if i != e.index {
        OtherTool(tools[i], i, ps, Call(e));
      }
    }
  }

  lemma NewTool(tools: map<int, OutTool>, toolOrder: seq<int>, ps: seq<Piece>, e: ToolEntry, t: OutTool)
    requires ToolsTrack(tools, toolOrder, ps) && e.index !in tools
    requires t == OutTool(CallId(e.index), FirstNonEmpty(e.id, e.clockId), Trunc(e.name, 128), e.args, |Order(ps)|)
    ensures ToolsTrack(tools[e.index := t], toolOrder + [e.index], ps + [Call(e)])
  {
    var p := Call(e);
    var tools' := tools[e.index := t];
    Snoc(ps, p);
    Unheard(ps, CallKey(e.index));
    assert (ps + [p])[..|ps|] == ps;
    forall i | i in tools' ensures ToolTracks(tools'[i], i, ps + [p]) {
      if i != e.index {
        OtherTool(tools[i], i, ps, p);
      }
    }
  }

  /** The item buffers of the emitter. */
  datatype Buffers = Buffers(
    msgOpen: bool, msgId: ItemId, msgIndex: nat, textBuf: string,
    reasonOpen: bool, reasonId: ItemId, reasonIndex: nat, reasonBuf: string,
    tools: map<int, OutTool>, toolOrder: seq<int>, itemIndex: nat)

  ghost predicate Track(b: Buffers, ps: seq<Piece>) {
    && b.itemIndex == |Order(ps)|
    && SpeakerTracks(b.msgOpen, b.msgIndex, b.textBuf, ps, MessageKey)
    && (b.msgOpen ==> b.msgId == MsgId(b.msgIndex))
    && SpeakerTracks(b.reasonOpen, b.reasonIndex, b.reasonBuf, ps, ThoughtKey)
    && (b.reasonOpen ==> b.reasonId == ReasonId(b.reasonIndex))
    && ToolsTrack(b.tools, b.toolOrder, ps)
  }

  lemma TextTracks(b: Buffers, ps: seq<Piece>, txt: string)
    requires Track(b, ps)
    ensures
      var j := if b.msgOpen then b.msgIndex else b.itemIndex;
      Track(b.(msgOpen := true, msgId := MsgId(j), msgIndex := j, textBuf := b.textBuf + txt,
               itemIndex := if b.msgOpen then b.itemIndex else b.itemIndex + 1), ps + [Text(txt)])
  {
    var p := Text(txt);
    Snoc(ps, p);
    SameSpeaker(b.msgOpen, if b.msgOpen then b.msgIndex else b.itemIndex, b.textBuf, ps, p);
    OtherSpeaker(b.reasonOpen, b.reasonIndex, b.reasonBuf, ps, p, ThoughtKey);
    NoTool(b.tools, b.toolOrder, ps, p);
  }

  lemma TextRead(w: seq<Event>, b: Buffers, ps: seq<Piece>, txt: string)
    requires Track(b, ps) && Read(w) == Some(Reader(ps)) && txt != ""
    ensures
      var j := if b.msgOpen then b.msgIndex else b.itemIndex;
      var w1 := if b.msgOpen then w else w + [ItemAdded(j, Message(MsgId(j), None))] + [PartAdded(MsgId(j), j)];
      Read(w1 + [TextDelta(MsgId(j), j, txt)]) == Some(Reader(ps + [Text(txt)]))
  {
    if b.msgOpen { ReadKnownText(w, ps, txt, b.msgIndex); } else { ReadNewText(w, ps, txt); }
  }

  lemma ThoughtTracks(b: Buffers, ps: seq<Piece>, th: string)
    requires Track(b, ps)
    ensures
      var j := if b.reasonOpen then b.reasonIndex else b.itemIndex;
      Track(b.(reasonOpen := true, reasonId := ReasonId(j), reasonIndex := j, reasonBuf := b.reasonBuf + th,
               itemIndex := if b.reasonOpen then b.itemIndex else b.itemIndex + 1), ps + [Thought(th)])
  {
    var p := Thought(th);
    Snoc(ps, p);
    SameSpeaker(b.reasonOpen, if b.reasonOpen then b.reasonIndex else b.itemIndex, b.reasonBuf, ps, p);
    OtherSpeaker(b.msgOpen, b.msgIndex, b.textBuf, ps, p, MessageKey);
    NoTool(b.tools, b.toolOrder, ps, p);
  }

  lemma ThoughtRead(w: seq<Event>, b: Buffers, ps: seq<Piece>, th: string)
    requires Track(b, ps) && Read(w) == Some(Reader(ps)) && th != ""
    ensures
      var j := if b.reasonOpen then b.reasonIndex else b.itemIndex;
      var w1 := if b.reasonOpen then w else w + [ItemAdded(j, Reasoning(ReasonId(j), None))];
      Read(w1 + [ReasoningDelta(ReasonId(j), j, th)]) == Some(Reader(ps + [Thought(th)]))
  {
    if b.reasonOpen { ReadKnownThought(w, ps, th, b.reasonIndex); } else { ReadNewThought(w, ps, th); }
  }

  /** The call an entry belongs to, as it is before the entry's arguments are added. */
  function Target(b: Buffers, e: ToolEntry): OutTool {
    if e.index in b.tools then b.tools[e.index]
    else OutTool(CallId(e.index), FirstNonEmpty(e.id, e.clockId), Trunc(e.name, 128), "", b.itemIndex)
  }

  /** The buffers after an entry. */
  function Entered(b: Buffers, e: ToolEntry): Buffers {
    var t := Target(b, e);
    b.(tools := b.tools[e.index := t.(arguments := t.arguments + e.args)],
       toolOrder := if e.index in b.tools then b.toolOrder else b.toolOrder + [e.index],
       itemIndex := if e.index in b.tools then b.itemIndex else b.itemIndex + 1)
  }

  /** What an entry makes the emitter write. */
  function Announcement(b: Buffers, e: ToolEntry): seq<Event> {
    var t := Target(b, e);
    (if e.index in b.tools then [] else [ItemAdded(t.outputIndex,
                                                   FunctionCall(t.itemId, t.callId, t.name, "", "", false))])
    + if e.args == "" then [] else [ArgumentsDelta(t.itemId, t.outputIndex, e.args)]
  }

  lemma EntryTracks(b: Buffers, ps: seq<Piece>, e: ToolEntry)
    requires Track(b, ps)
    ensures Track(Entered(b, e), ps + [Call(e)])
  {
    var p, t := Call(e), Target(b, e);
    Snoc(ps, p);
    OtherSpeaker(b.msgOpen, b.msgIndex, b.textBuf, ps, p, MessageKey);
    OtherSpeaker(b.reasonOpen, b.reasonIndex, b.reasonBuf, ps, p, ThoughtKey);
    if e.index in b.tools {
      KnownTool(b.tools, b.toolOrder, ps, e);
    } else {
      assert "" + e.args == e.args;
      NewTool(b.tools, b.toolOrder, ps, e, t.(arguments := t.arguments + e.args));
    }
  }

  lemma EntryRead(w: seq<Event>, b: Buffers, ps: seq<Piece>, e: ToolEntry)
    requires Track(b, ps) && Read(w) == Some(Reader(ps))
    ensures Read(w + Announcement(b, e)) == Some(Reader(ps + [Call(e)]))
  {
    hide Read, Reader, Order;
    var t := Target(b, e);
    var announced := ItemAdded(t.outputIndex, FunctionCall(t.itemId, t.callId, t.name, "", "", false));
    var delta := ArgumentsDelta(t.itemId, t.outputIndex, e.args);
    if e.index in b.tools {
      assert ToolTracks(b.tools[e.index], e.index, ps);
      ReadKnownCall(w, ps, e, b.tools[e.index].outputIndex);
      assert w + ([] + []) == w && w + ([] + [delta]) == w + [delta];
    } else {
      ReadNewCall(w, ps, e);
      assert w + ([announced] + [delta]) == w + [announced] + [delta];
      assert w + ([announced] + []) == w + [announced];
    }
  }

  lemma IdsTrack(b: Buffers, ps: seq<Piece>)
    requires Track(b, ps)
    ensures b.msgOpen ==> b.msgId == MsgId(b.msgIndex)
    ensures b.reasonOpen ==> b.reasonId == ReasonId(b.reasonIndex)
  {
  }

  lemma SilentExactly(b: Buffers, e: ToolEntry)
    ensures Announcement(b, e) == [] <==> e.args == "" && e.index in b.tools
  {
  }

  lemma SameCalls(b: Buffers, e: ToolEntry)
    ensures e.index in b.tools ==> Entered(b, e).tools.Keys == b.tools.Keys
  {
  }

  // ---- The output map while the items are being closed ----

  /** The slots of the closed speakers, and no others, have been stored. */
  ghost predicate Stored(output: map<nat, Item>, ps: seq<Piece>, done: set<Key>) {
    && (forall j: nat :: j in output <==> j < |Order(ps)| && Order(ps)[j] in done)
    && (forall j: nat :: j in output ==> output[j] == Filled(OpenSlot(ps, j)))
  }

  lemma StoreOne(output: map<nat, Item>, ps: seq<Piece>, done: set<Key>, j: nat)
    requires Stored(output, ps, done) && j < |Order(ps)|
    ensures Stored(output[j := Filled(OpenSlot(ps, j))], ps, done + {Order(ps)[j]})
  {
    OrderDistinct(ps);
  }

  lemma CloseThought(w: seq<Event>, b: Buffers, output: map<nat, Item>, ps: seq<Piece>, done: set<Key>)
    requires Track(b, ps) && b.reasonOpen && ThoughtKey !in done
    requires Read(w) == Some(Closer(ps, done)) && Stored(output, ps, done)
    ensures
      var item := Reasoning(b.reasonId, Some(b.reasonBuf));
      && Read(w + [ItemDone(b.reasonIndex, item)]) == Some(Closer(ps, done + {ThoughtKey}))
      && Stored(output[b.reasonIndex := item], ps, done + {ThoughtKey})
  {
    ReadClosedThought(w, ps, done, b.reasonIndex);
    StoreOne(output, ps, done, b.reasonIndex);
  }

  lemma CloseText(w: seq<Event>, b: Buffers, output: map<nat, Item>, ps: seq<Piece>, done: set<Key>)
    requires Track(b, ps) && b.msgOpen && MessageKey !in done
    requires Read(w) == Some(Closer(ps, done)) && Stored(output, ps, done)
    ensures
      var i, t := b.msgIndex, b.textBuf;
      var item := Message(b.msgId, Some(t));
      && Read(w + [TextDone(b.msgId, i, t)] + [PartDone(b.msgId, i, t)] + [ItemDone(i, item)])
         == Some(Closer(ps, done + {MessageKey}))
      && Stored(output[i := item], ps, done + {MessageKey})
  {
    ReadClosedText(w, ps, done, b.msgIndex);
    StoreOne(output, ps, done, b.msgIndex);
  }

  lemma CloseTool(w: seq<Event>, b: Buffers, output: map<nat, Item>, ps: seq<Piece>, done: set<Key>, idx: int)
    requires Track(b, ps) && idx in b.tools && CallKey(idx) !in done
    requires Read(w) == Some(Closer(ps, done)) && Stored(output, ps, done)
    ensures
      var t := b.tools[idx];
      var item := FunctionCall(t.itemId, t.callId, t.name, "", t.arguments, true);
      && Read(w + [ArgumentsDone(t.itemId, t.outputIndex, t.arguments)] + [ItemDone(t.outputIndex, item)])
         == Some(Closer(ps, done + {CallKey(idx)}))
      && Stored(output[t.outputIndex := item], ps, done + {CallKey(idx)})
  {
    assert ToolTracks(b.tools[idx], idx, ps);
    ReadClosedCall(w, ps, done, b.tools[idx].outputIndex);
    StoreOne(output, ps, done, b.tools[idx].outputIndex);
  }

  /** The speakers of the first `n` tool calls. */
  function CallKeys(toolOrder: seq<int>): set<Key> {
    set i | i in toolOrder :: CallKey(i)
  }

  /** Once every buffer is closed, every speaker is. */
  lemma AllClosed(b: Buffers, output: map<nat, Item>, ps: seq<Piece>, done: set<Key>)
    requires Track(b, ps) && Stored(output, ps, done)
    requires b.reasonOpen ==> ThoughtKey in done
    requires b.msgOpen ==> MessageKey in done
    requires CallKeys(b.toolOrder) <= done
    ensures forall k <- Order(ps) :: k in done
    ensures b.itemIndex == |Order(ps)|
    ensures forall j :: 0 <= j < b.itemIndex ==> j in output && output[j] == Outputs(ClosedSlots(ps))[j]
  {
    hide OpenSlot, Stored;
    forall k | k in Order(ps) ensures k in done {
      if k.CallKey? {
        assert k.index in b.tools;
        assert k in CallKeys(b.toolOrder);
      }
    }
    AllStored(output, ps, done);
  }

  lemma AllStored(output: map<nat, Item>, ps: seq<Piece>, done: set<Key>)
    requires Stored(output, ps, done) && forall k <- Order(ps) :: k in done
    ensures forall j :: 0 <= j < |Order(ps)| ==> j in output && output[j] == Outputs(ClosedSlots(ps))[j]
  {
    hide OpenSlot;
    forall j | 0 <= j < |Order(ps)| ensures j in output && output[j] == Outputs(ClosedSlots(ps))[j] {
      assert Order(ps)[j] in Order(ps);
    }
  }

  lemma NotClosedYet(b: Buffers, ps: seq<Piece>, n: nat)
    requires Track(b, ps) && n < |b.toolOrder|
    ensures b.toolOrder[n] in b.tools
    ensures CallKey(b.toolOrder[n]) !in CallKeys(b.toolOrder[..n])
    ensures CallKeys(b.toolOrder[..n + 1]) == CallKeys(b.toolOrder[..n]) + {CallKey(b.toolOrder[n])}
  {
    assert b.toolOrder[n] in b.toolOrder;
    assert b.toolOrder[..n + 1] == b.toolOrder[..n] + [b.toolOrder[n]];
  }

  lemma NoCallKeys(toolOrder: seq<int>)
    requires toolOrder == []
    ensures CallKeys(toolOrder) == {}
  {
  }

  lemma ToolsTracked(b: Buffers, ps: seq<Piece>)
    requires Track(b, ps)
    ensures forall i :: i in b.tools <==> CallKey(i) in Order(ps)
  {
  }

  lemma FirstRead(w: seq<Event>, ps: seq<Piece>, model: string)
    requires w == [] && ps == []
    ensures Read(w + [Created(model)]) == Some(Reader(ps))
  {
    ReadSnoc([], Created(model));
    assert OpenSlots([]) == [];
  }

  lemma StartClosing(ps: seq<Piece>)
    ensures Reader(ps) == Closer(ps, {})
    ensures Stored(map[], ps, {})
  {
    assert HalfClosed(ps, {}) == OpenSlots(ps);
  }

  class ResponsesOutState {
    var model: string
    var started: bool
    // the message item
    var msgOpen: bool
    var msgId: ItemId
    var msgIndex: nat
    var textBuf: string
    // the reasoning item
    var reasonOpen: bool
    var reasonId: ItemId
    var reasonIndex: nat
    var reasonBuf: string
    // the function call items
    var tools: map<int, OutTool>
    var toolOrder: seq<int>
    var itemIndex: nat
    var finish: string
    var finishSent: bool
    var promptTok: int
    var complTok: int
    var output: map<nat, Item>
    /** The events written to the client. */
    var written: seq<Event>
    /** The pieces fed before the stream was finished. */
    ghost var heard: seq<Piece>

    /** The reader has rejected the stream. */
    ghost predicate Broken()
      reads this`written
    {
      Read(written).None?
    }

    function View(): Buffers
      reads this
    {
      Buffers(msgOpen, msgId, msgIndex, textBuf, reasonOpen, reasonId, reasonIndex, reasonBuf, tools, toolOrder,
              itemIndex)
    }

    /** Before the end: the reader holds exactly the open items. */
    ghost predicate Open()
      reads this
    {
      && !finishSent
      && Track(View(), heard)
      && output == map[]
      && (if started then Read(written) == Some(Reader(heard)) else written == [] && heard == [])
    }

    /** After the end: anything more that is written breaks the stream. */
    ghost predicate Sealed()
      reads this
    {
      && finishSent
      && started
      && Over(written)
      && (!Broken() ==> forall i :: i in tools <==> CallKey(i) in Order(heard))
    }

    ghost predicate Valid()
      reads this
    {
      Open() || Sealed()
    }

    constructor (model: string)
      ensures Valid() && Open() && !started
      ensures this.model == model && finish == "stop" && promptTok == 0 && complTok == 0
      ensures written == [] && heard == []
    {
      this.model := model;
      started, finishSent, finish := false, false, "stop";
      msgOpen, msgId, msgIndex, textBuf := false, MsgId(0), 0, "";
      reasonOpen, reasonId, reasonIndex, reasonBuf := false, ReasonId(0), 0, "";
      tools, toolOrder, itemIndex := map[], [], 0;
      promptTok, complTok := 0, 0;
      output, written, heard := map[], [], [];
    }

    method Write(e: Event)
      modifies this`written
      ensures written == old(written) + [e]
      ensures old(Over(written)) ==> Broken() && Over(written)
    {
      if Over(written) { ReadOver(written, e); }
      written := written + [e];
    }

    method NextItemIndex() returns (index: nat)
      modifies this`itemIndex
      ensures index == old(itemIndex) && itemIndex == index + 1
    {
      index := itemIndex;
      itemIndex := itemIndex + 1;
    }

    method Start()
      requires Valid() && !started
      modifies this`started, this`written
      ensures Valid() && Open() && started
    {
      hide Track, Read, Reader;
      started := true;
      FirstRead(written, heard, model);
      Write(Created(model));
    }

    method AddMessage()
      modifies this`msgOpen, this`msgIndex, this`msgId, this`itemIndex, this`written
      ensures msgOpen && msgIndex == old(itemIndex) && msgId == MsgId(msgIndex) && itemIndex == msgIndex + 1
      ensures written == old(written) + [ItemAdded(msgIndex, Message(msgId, None))] + [PartAdded(msgId, msgIndex)]
      ensures old(Over(written)) ==> Over(written)
    {
      hide Over;
      msgOpen := true;
      msgIndex := NextItemIndex();
      msgId := MsgId(msgIndex);
      Write(ItemAdded(msgIndex, Message(msgId, None)));
      Write(PartAdded(msgId, msgIndex));
    }

    method AddReasoning()
      modifies this`reasonOpen, this`reasonIndex, this`reasonId, this`itemIndex, this`written
      ensures reasonOpen && reasonIndex == old(itemIndex) && reasonId == ReasonId(reasonIndex)
      ensures itemIndex == reasonIndex + 1
      ensures written == old(written) + [ItemAdded(reasonIndex, Reasoning(reasonId, None))]
      ensures old(Over(written)) ==> Over(written)
    {
      reasonOpen := true;
      reasonIndex := NextItemIndex();
      reasonId := ReasonId(reasonIndex);
      Write(ItemAdded(reasonIndex, Reasoning(reasonId, None)));
    }

    method AddTool(e: ToolEntry)
      requires e.index !in tools
      modifies this`tools, this`toolOrder, this`itemIndex, this`written
      ensures tools == old(tools)[e.index := old(Target(View(), e))]
      ensures toolOrder == old(toolOrder) + [e.index] && itemIndex == old(itemIndex) + 1
      ensures
        var t := tools[e.index];
        written == old(written) + [ItemAdded(t.outputIndex, FunctionCall(t.itemId, t.callId, t.name, "", "", false))]
      ensures old(Over(written)) ==> Over(written) && Broken()
    {
      var i := NextItemIndex();
      var t := OutTool(CallId(e.index), FirstNonEmpty(e.id, e.clockId), Trunc(e.name, 128), "", i);
      tools := tools[e.index := t];
      toolOrder := toolOrder + [e.index];
      Write(ItemAdded(t.outputIndex, FunctionCall(t.itemId, t.callId, t.name, "", "", false)));
    }

    method FeedText(txt: string)
      requires Valid() && started && txt != ""
      modifies this`msgOpen, this`msgIndex, this`msgId, this`textBuf, this`itemIndex, this`written, this`heard
      ensures Valid()
      ensures !finishSent ==> heard == old(heard) + [Text(txt)]
      ensures finishSent ==> Broken() && heard == old(heard)
    {
      hide Track, Read, Reader, Order, Over;
      ghost var b, w, ps := View(), written, heard;
      if !msgOpen {
        AddMessage();
      }
      textBuf := textBuf + txt;
      Write(TextDelta(msgId, msgIndex, txt));
      if !finishSent {
        TextTracks(b, ps, txt);
        TextRead(w, b, ps, txt);
        IdsTrack(b, ps);
        heard := heard + [Text(txt)];
        assert Open();
      }
    }

    method FeedReasoning(th: string)
      requires Valid() && started && th != ""
      modifies this`reasonOpen, this`reasonIndex, this`reasonId, this`reasonBuf
      modifies this`itemIndex, this`written, this`heard
      ensures Valid()
      ensures !finishSent ==> heard == old(heard) + [Thought(th)]
      ensures finishSent ==> Broken() && heard == old(heard)
    {
      hide Track, Read, Reader, Order, Over;
      ghost var b, w, ps := View(), written, heard;
      if !reasonOpen {
        AddReasoning();
      }
      reasonBuf := reasonBuf + th;
      Write(ReasoningDelta(reasonId, reasonIndex, th));
      if !finishSent {
        ThoughtTracks(b, ps, th);
        ThoughtRead(w, b, ps, th);
        IdsTrack(b, ps);
        heard := heard + [Thought(th)];
        assert Open();
      }
    }

    /** Announces the call of an entry unless it is known, and passes its arguments on. */
    method Enter(e: ToolEntry)
      modifies this`tools, this`toolOrder, this`itemIndex, this`written
      ensures View() == Entered(old(View()), e) && written == old(written) + Announcement(old(View()), e)
      ensures old(Over(written)) ==> Over(written) && (written != old(written) ==> Broken())
    {
      hide Over, Broken;
      ghost var target, w := Target(View(), e), written;
      assert target.arguments + "" == target.arguments;
      if e.index !in tools {
        AddTool(e);
      }
      if e.args != "" {
        var t := tools[e.index];
        tools := tools[e.index := t.(arguments := t.arguments + e.args)];
        Write(ArgumentsDelta(t.itemId, t.outputIndex, e.args));
      }
    }

    method FeedEntry(e: ToolEntry)
      requires Valid() && started
      modifies this`tools, this`toolOrder, this`itemIndex, this`written, this`heard
      ensures Valid()
      ensures !finishSent ==> heard == old(heard) + [Call(e)]
      ensures finishSent ==> heard == old(heard)
      ensures finishSent && !old(Broken()) && e.args == "" && CallKey(e.index) in Order(heard) ==>
                written == old(written)
      ensures finishSent && (old(Broken()) || e.args != "" || CallKey(e.index) !in Order(heard)) ==> Broken()
    {
      hide Track, Read, Reader, Order, Over, Entered;
      if !finishSent {
        EntryTracks(View(), heard, e);
        EntryRead(written, View(), heard, e);
        Enter(e);
        heard := heard + [Call(e)];
        assert Open();
      } else {
        SilentExactly(View(), e);
        Enter(e);
        SameCalls(old(View()), e);
      }
    }

    /** Sends the closing events of every item, then the completed response. */
    method FinishStream()
      requires Valid()
      modifies this
      ensures Valid() && finishSent && heard == old(heard)
      ensures old(finishSent) ==> written == old(written)
      ensures !old(finishSent) ==> Read(written) == Some(Answer(heard, model, finish, Usage(promptTok, complTok)))
      ensures model == old(model) && finish == old(finish) && promptTok == old(promptTok) && complTok == old(complTok)
    {
      hide Track, Read, Reader, Answer, Order;
      if finishSent {
        return;
      }
      if !started {
        Start();
      }
      finishSent := true;
      FinishItems();
    }

    method FinishItems()
      requires finishSent && started && output == map[]
      requires Track(View(), heard) && Read(written) == Some(Reader(heard))
      modifies this`output, this`written, this`msgOpen, this`reasonOpen
      ensures Valid() && Read(written) == Some(Answer(heard, model, finish, Usage(promptTok, complTok)))
    {
      hide Track, Stored, Read, Step, Order, OpenSlot, HalfClosed, CallKeys;
      ghost var b, ps, done := View(), heard, {};
      StartClosing(ps);
      if reasonOpen {
        CloseThought(written, b, output, ps, done);
        done := done + {ThoughtKey};
        var item := Reasoning(reasonId, Some(reasonBuf));
        output := output[reasonIndex := item];
        Write(ItemDone(reasonIndex, item));
        reasonOpen := false;
      }
      if msgOpen {
        CloseText(written, b, output, ps, done);
        done := done + {MessageKey};
        var item := Message(msgId, Some(textBuf));
        output := output[msgIndex := item];
        Write(TextDone(msgId, msgIndex, textBuf));
        Write(PartDone(msgId, msgIndex, textBuf));
        Write(ItemDone(msgIndex, item));
        msgOpen := false;
      }
      FinishTools(b, done);
    }

    method FinishTools(ghost b: Buffers, ghost open: set<Key>)
      requires finishSent && started && Track(b, heard)
      requires b.tools == tools && b.toolOrder == toolOrder && b.itemIndex == itemIndex
      requires open <= {ThoughtKey, MessageKey}
      requires (b.reasonOpen ==> ThoughtKey in open) && (b.msgOpen ==> MessageKey in open)
      requires Read(written) == Some(Closer(heard, open)) && Stored(output, heard, open)
      modifies this`output, this`written
      ensures Valid() && Read(written) == Some(Answer(heard, model, finish, Usage(promptTok, complTok)))
    {
      hide Track, Stored, Read, Step, Order, OpenSlot, HalfClosed, CallKeys;
      ghost var ps := heard;
      ghost var done := open;
      assert CallKeys(toolOrder[..0]) == {} by { NoCallKeys(toolOrder[..0]); }
      for n := 0 to |toolOrder|
        invariant done == open + CallKeys(toolOrder[..n])
        invariant Read(written) == Some(Closer(ps, done)) && Stored(output, ps, done)
      {
        NotClosedYet(b, ps, n);
        var idx := toolOrder[n];
        CloseTool(written, b, output, ps, done, idx);
        done := done + {CallKey(idx)};
        var t := tools[idx];
        var item := FunctionCall(t.itemId, t.callId, t.name, "", t.arguments, true);
        output := output[t.outputIndex := item];
        Write(ArgumentsDone(t.itemId, t.outputIndex, t.arguments));
        Write(ItemDone(t.outputIndex, item));
      }
      assert toolOrder[..|toolOrder|] == toolOrder;
      AllClosed(b, output, ps, done);

      var completedOutput: seq<Item> := [];
      for idx := 0 to itemIndex
        invariant completedOutput == Outputs(ClosedSlots(ps))[..idx]
      {
        if idx in output {
          completedOutput := completedOutput + [output[idx]];
        }
      }
      assert completedOutput == Outputs(ClosedSlots(ps));
      var usage := Usage(promptTok, complTok);
      ReadCompleted(written, ps, done, model, finish, usage);
      assert Answer(ps, model, finish, usage).reply ==
        Some(Response(model, finish == "length", completedOutput, usage));
      Write(Completed(Response(model, finish == "length", completedOutput, usage)));
      ToolsTracked(b, ps);
    }

    /** Consumes one chunk; `done` says that the closing sequence was sent. */
    method Feed(chunk: Chunk) returns (usage: Option<Usage>, done: bool)
      requires Valid()
      modifies this
      ensures Valid()
      ensures usage == chunk.usage
      ensures done == (Finishing(chunk) && !old(finishSent))
      ensures model == if chunk.model != "" then chunk.model else old(model)
      ensures Usage(promptTok, complTok) ==
        if chunk.usage.Some? then chunk.usage.value else old(Usage(promptTok, complTok))
      ensures finish == if Finishing(chunk) then FinishFromOpenAI(FinishOf(chunk)) else old(finish)
      ensures !old(finishSent) ==> heard == old(heard) + ChunkPieces(chunk) && finishSent == Finishing(chunk)
      ensures done ==> Read(written) == Some(Answer(heard, model, finish, Usage(promptTok, complTok)))
      ensures old(finishSent) ==> finishSent && heard == old(heard)
      ensures old(finishSent && !Broken()) && Inert(chunk, Order(heard)) ==> written == old(written)
      ensures old(finishSent) && (old(Broken()) || !Inert(chunk, Order(heard))) ==> Broken()
    {
      hide Valid, Broken, Read, Order, Answer;
      done := false;
      usage := Note(chunk);
      if chunk.choice.None? {
        return;
      }
      if !started {
        Start();
      }
      FeedDelta(chunk.choice.value.delta);
      if FinishString(chunk.choice.value.finish) != "" && !finishSent {
        FinishStream();
        done := true;
      }
    }

    /** The parts of a chunk that are only remembered: model, usage and finish reason. */
    method Note(chunk: Chunk) returns (usage: Option<Usage>)
      requires Valid()
      modifies this`model, this`promptTok, this`complTok, this`finish
      ensures Valid()
      ensures usage == chunk.usage
      ensures model == if chunk.model != "" then chunk.model else old(model)
      ensures Usage(promptTok, complTok) ==
        if chunk.usage.Some? then chunk.usage.value else old(Usage(promptTok, complTok))
      ensures finish == if Finishing(chunk) then FinishFromOpenAI(FinishOf(chunk)) else old(finish)
    {
      hide Track, Read, Reader, Over, Order, FinishFromOpenAI, FinishString;
      if chunk.model != "" {
        model := chunk.model;
      }
      usage := None;
      if chunk.usage.Some? {
        promptTok, complTok := chunk.usage.value.prompt, chunk.usage.value.completion;
        usage := chunk.usage;
      }
      if chunk.choice.Some? {
        var reason := FinishString(chunk.choice.value.finish);
        if reason != "" {
          finish := FinishFromOpenAI(reason);
        }
      }
    }

    method FeedDelta(d: Delta)
      requires Valid() && started
      modifies this`msgOpen, this`msgIndex, this`msgId, this`textBuf, this`reasonOpen, this`reasonIndex, this`reasonId,
               this`reasonBuf, this`tools, this`toolOrder, this`itemIndex, this`written, this`heard
      ensures Valid()
      ensures !finishSent ==> heard == old(heard) + DeltaPieces(d)
      ensures finishSent ==> heard == old(heard)
      ensures finishSent && SaysNothing(d, Order(heard)) && !old(Broken()) ==> written == old(written)
      ensures finishSent && (!SaysNothing(d, Order(heard)) || old(Broken())) ==> Broken()
    {
      hide Valid, Order, Broken;
      if d.content != "" {
        FeedText(d.content);
      }
      if d.reasoning != "" {
        FeedReasoning(d.reasoning);
      }
      FeedEntries(d.toolCalls);
    }

    method FeedEntries(entries: seq<ToolEntry>)
      requires Valid() && started
      modifies this`tools, this`toolOrder, this`itemIndex, this`written, this`heard
      ensures Valid()
      ensures !finishSent ==> heard == old(heard) + CallPieces(entries)
      ensures finishSent ==> heard == old(heard)
      ensures finishSent && KnownAndBare(entries, Order(heard)) && !old(Broken()) ==> written == old(written)
      ensures finishSent && (!KnownAndBare(entries, Order(heard)) || old(Broken())) ==> Broken()
    {
      hide Valid, Order, Broken;
      for n := 0 to |entries|
        invariant Valid() && started
        invariant !finishSent ==> heard == old(heard) + CallPieces(entries)[..n]
        invariant finishSent ==> heard == old(heard)
        invariant finishSent && !old(Broken()) && KnownAndBare(entries[..n], Order(heard)) ==> written == old(written)
        invariant finishSent && (old(Broken()) || !KnownAndBare(entries[..n], Order(heard))) ==> Broken()
      {
        assert entries[..n + 1] == entries[..n] + [entries[n]];
        FeedEntry(entries[n]);
      }
      assert entries[..|entries|] == entries;
      assert CallPieces(entries)[..|entries|] == CallPieces(entries);
    }
  }

  /** Nothing was said between the finishing chunk and chunk `i`. */
  ghost predicate QuietTo(cs: seq<Chunk>, i: nat)
    requires i <= |cs|
  {
    forall j :: FinishIndex(cs) < j < i ==> Inert(cs[j], Order(Pieces(Heard(cs))))
  }

  /** Upstream chat chunks to a Responses client. The client gets a well-formed stream if
      and only if nothing is said after the finishing chunk, and then it reads back exactly
      the reply the chunks amount to. */
  method BridgeChatChunks(model: string, chunks: seq<Chunk>) returns (events: seq<Event>, lastUsage: Option<Usage>)
    ensures Read(events) == if Quiet(chunks) then Some(ReplyTo(model, chunks)) else None
    ensures lastUsage == Billed(chunks)
  {
    hide Read, Pieces, LastModel, LastUsage, Inert, Order, Answer, Heard, QuietTo, ReplyTo, FinalFinish, Finishing;
    hide ResponsesOutState.Valid, ResponsesOutState.Open, FinishFromOpenAI, FinishOf, ChunkPieces, Quiet, FinishIndex;
    var st := new ResponsesOutState(model);
    lastUsage := None;
    ghost var n := FinishIndex(chunks);
    EmptyStream();
    for i := 0 to |chunks|
      invariant st.Valid()
      invariant lastUsage == Billed(chunks[..i])
      invariant i <= n ==> Unfinished(st, model, chunks[..i])
      invariant i > n ==> st.finishSent && st.heard == Pieces(Heard(chunks))
      invariant i > n && QuietTo(chunks, i) ==> Read(st.written) == Some(ReplyTo(model, chunks))
      invariant i > n && !QuietTo(chunks, i) ==> st.Broken()
    {
      assert chunks[..i + 1] == chunks[..i] + [chunks[i]];
      assert chunks[..i + 1][..i] == chunks[..i];
      PiecesSnoc(chunks[..i], chunks[i]);
      AtFinish(model, chunks, i);
      AfterFinish(chunks, i);
      var usage, done := st.Feed(chunks[i]);
      if usage.Some? {
        lastUsage := usage;
      }
    }
    assert chunks[..|chunks|] == chunks;
    NeverFinished(model, chunks);
    st.FinishStream();
    return st.written, lastUsage;
  }

  ghost predicate Unfinished(st: ResponsesOutState, model: string, cs: seq<Chunk>)
    reads st
  {
    && !st.finishSent
    && st.heard == Pieces(cs)
    && st.model == LastModel(model, cs)
    && Usage(st.promptTok, st.complTok) == LastUsage(cs)
    && st.finish == "stop"
  }

  lemma EmptyStream()
    ensures Pieces([]) == [] && LastUsage([]) == Usage(0, 0)
    ensures forall m :: LastModel(m, []) == m
  {
  }

  lemma AtFinish(model: string, cs: seq<Chunk>, i: nat)
    requires i < |cs|
    ensures i < FinishIndex(cs) ==> !Finishing(cs[i])
    ensures i == FinishIndex(cs) ==>
      && Finishing(cs[i])
      && Heard(cs) == cs[..i + 1]
      && QuietTo(cs, i + 1)
      && ReplyTo(model, cs) ==
         Answer(Pieces(cs[..i + 1]), LastModel(model, cs[..i + 1]), FinishFromOpenAI(FinishOf(cs[i])),
                LastUsage(cs[..i + 1]))
  {
  }

  lemma AfterFinish(cs: seq<Chunk>, i: nat)
    requires i < |cs|
    ensures i > FinishIndex(cs) ==> (QuietTo(cs, i + 1) <==> QuietTo(cs, i) && Inert(cs[i], Order(Pieces(Heard(cs)))))
  {
    hide FinishIndex, Inert, Order, Pieces, Heard, Finishing;
    var n, known := FinishIndex(cs), Order(Pieces(Heard(cs)));
    if n < i {
      assert QuietTo(cs, i) && Inert(cs[i], known) ==> forall j :: n < j < i + 1 ==> Inert(cs[j], known);
    }
  }

  lemma NeverFinished(model: string, cs: seq<Chunk>)
    ensures QuietTo(cs, |cs|) == Quiet(cs)
    ensures FinishIndex(cs) == |cs| ==>
      Quiet(cs) && ReplyTo(model, cs) == Answer(Pieces(cs), LastModel(model, cs), "stop", LastUsage(cs))
  {
  }
}
