/** The history of a conversation on its way to an Anthropic upstream and back: consecutive
    tool results are gathered into one user message, and taken apart again. */
module AnthropicHistory {
  import opened Wrappers
  import C = Chat
  import opened Pivot
  import J = Json

  datatype Block =
    | Text(s: string)
    | ToolUse(id: string, name: string, input: J.Value)
    | ToolResult(id: string, content: string)
    | Thinking(s: string)

  datatype Turn = Turn(role: Role, blocks: seq<Block>)

  /** An Anthropic request: the system text, empty if there is none, and the turns. */
  datatype Request = Request(system: string, turns: seq<Turn>)

  // ---- Arguments ----

  function InputOf(arguments: string, c: J.Codec): J.Value {
    if arguments == "" then J.EMPTY_OBJECT
    else
      var v := c.parse(arguments);
      if v.Some? && (v.value.Object? || v.value.Null?) then v.value else J.EMPTY_OBJECT
  }

  function ArgumentsOf(input: J.Value, c: J.Codec): string {
    match input
    case Null => ""
    case String(s) => s
    case _ => c.marshal(input)
  }

  /** The text is a JSON object as the printer prints it. */
  predicate Canonical(arguments: string, c: J.Codec) {
    var v := c.parse(arguments);
    v.Some? && v.value.Object? && c.marshal(v.value) == arguments
  }

  lemma CanonicalExactly(arguments: string, c: J.Codec)
    requires J.Faithful(c)
    ensures ArgumentsOf(InputOf(arguments, c), c) == arguments <==> Canonical(arguments, c)
  {
    assert c.parse(c.marshal(J.EMPTY_OBJECT)) == Some(J.EMPTY_OBJECT);
  }

  // ---- To Anthropic ----

  function CallName(name: string): string {
    C.Trunc(TrimSpace(name), NAME_LIMIT)
  }

  function TextBlocks(texts: seq<string>): (r: seq<Block>)
    ensures |r| == |texts| && forall i :: 0 <= i < |r| ==> r[i] == Text(texts[i])
  {
    seq(|texts|, i requires 0 <= i < |texts| => Text(texts[i]))
  }

  function UseOf(call: Call, c: J.Codec): Block {
    ToolUse(IdOf(call.id), CallName(call.name), InputOf(call.arguments, c))
  }

  /** The tool uses of the calls that have a name. */
  function Uses(calls: seq<Call>, c: J.Codec): seq<Block> {
    if calls == [] then []
    else
      var call := calls[|calls| - 1];
      Uses(calls[..|calls| - 1], c) + if TrimSpace(call.name) != "" then [UseOf(call, c)] else []
  }

  /** A named call as it is sent: arguments that are a JSON object are sent as that object, null
      as null, and anything else as the empty object. */
  lemma CallIsSent(call: Call, c: J.Codec)
    requires TrimSpace(call.name) != ""
    ensures
      var name, v := TrimSpace(call.name), c.parse(call.arguments);
      Uses([call], c) == [ToolUse(if call.id != "" then call.id else "call_",
                                  if |name| <= 128 then name else name[..128],
                                  if call.arguments != "" && v.Some? && (v.value.Object? || v.value.Null?) then v.value
                                  else J.Object([]))]
  {
    hide TrimSpace;
    assert [call][..0] == [];
    assert Uses([], c) == [];
  }

  function ResultText(c: Content): string {
    match c
    case Null => ""
    case Str(s) => s
    case Parts(texts) => Join(texts, "\n")
  }

  /** The text of a tool result: its parts one a line. */
  lemma ResultByPart(texts: seq<string>, t: string)
    ensures ResultText(Parts([])) == "" && ResultText(Parts([t])) == t
    ensures texts != [] ==> ResultText(Parts(texts + [t])) == ResultText(Parts(texts)) + "\n" + t
  {
    JoinFew(t, "\n");
    if texts != [] {
      JoinSnoc(texts, t, "\n");
    }
  }

  /** The conversion under way: the system texts, the finished turns, the gathered results. */
  datatype Sending = Sending(system: seq<string>, turns: seq<Turn>, pending: seq<Block>)

  function Flushed(s: Sending): Sending {
    if s.pending == [] then s else Sending(s.system, s.turns + [Turn(UserRole, s.pending)], [])
  }

  function Appended(s: Sending, t: Turn): Sending {
    s.(turns := s.turns + [t])
  }

  function SendOne(s: Sending, m: Message, c: J.Codec): Sending {
    match m
    case System(_, content) => if JoinText(content) != "" then s.(system := s.system + [JoinText(content)]) else s
    case Spoken(role, content, calls, _) =>
      var texts := TextBlocks(TextsOf(content));
      if role.UserRole? then Appended(Flushed(s), Turn(role, texts))
      else if texts + Uses(calls, c) == [] then Flushed(s)
      else Appended(Flushed(s), Turn(role, texts + Uses(calls, c)))
    case Tool(id, content) => s.(pending := s.pending + [ToolResult(IdOf(id), ResultText(content))])
    case OtherRole => s
  }

  function Send(ms: seq<Message>, c: J.Codec): Sending {
    if ms == [] then Sending([], [], []) else SendOne(Send(ms[..|ms| - 1], c), ms[|ms| - 1], c)
  }

  function ToAnthropic(ms: seq<Message>, c: J.Codec): Request {
    var s := Flushed(Send(ms, c));
    Request(Join(s.system, "\n\n"), s.turns)
  }

  /** Converts the messages one after another. */
  method PivotToAnthropic(ms: seq<Message>, c: J.Codec) returns (r: Request)
    ensures r == ToAnthropic(ms, c)
  {
    var systemParts: seq<string> := [];
    var turns: seq<Turn> := [];
    var pending: seq<Block> := [];
    for i := 0 to |ms|
      invariant Sending(systemParts, turns, pending) == Send(ms[..i], c)
    {
      assert ms[..i + 1][..i] == ms[..i];
      var m := ms[i];
      if m.Spoken? && pending != [] {
        turns, pending := turns + [Turn(UserRole, pending)], [];
      }
      match m {
        case System(_, content) =>
          if JoinText(content) != "" {
            systemParts := systemParts + [JoinText(content)];
          }
        case Spoken(role, content, calls, _) =>
          var blocks := TextBlocks(TextsOf(content));
          if role.AssistantRole? {
            blocks := blocks + Uses(calls, c);
          }
          if role.UserRole? || blocks != [] {
            turns := turns + [Turn(role, blocks)];
          }
        case Tool(id, content) =>
          pending := pending + [ToolResult(IdOf(id), ResultText(content))];
        case OtherRole =>
      }
    }
    assert ms[..|ms|] == ms;
    if pending != [] {
      turns := turns + [Turn(UserRole, pending)];
    }
    return Request(Join(systemParts, "\n\n"), turns);
  }

  // ---- From Anthropic ----

  /** What the blocks of a turn say: texts, calls, tool results and reasoning. */
  datatype Taken = Taken(texts: seq<string>, calls: seq<Call>, results: seq<Message>, reasoning: string)

  function TakeOne(t: Taken, b: Block, c: J.Codec): Taken {
    match b
    case Text(s) => t.(texts := t.texts + [s])
    case ToolUse(id, name, input) => t.(calls := t.calls + [Call(id, C.Trunc(name, NAME_LIMIT), ArgumentsOf(input, c))])
    case ToolResult(id, content) => t.(results := t.results + [Tool(id, Str(content))])
    case Thinking(s) => if s == "" then t else t.(reasoning := if t.reasoning == "" then s else t.reasoning + "\n" + s)
  }

  function Take(blocks: seq<Block>, c: J.Codec): Taken {
    if blocks == [] then Taken([], [], [], "") else TakeOne(Take(blocks[..|blocks| - 1], c), blocks[|blocks| - 1], c)
  }

  /** The messages of one turn: its tool results first, then what is left of it. */
  function TurnMessages(t: Turn, c: J.Codec): seq<Message> {
    var k := Take(t.blocks, c);
    if k.texts == [] && k.calls == [] && k.reasoning == "" then k.results
    else k.results + [Spoken(t.role, ContentOf(k.texts), k.calls, k.reasoning)]
  }

  function Received(turns: seq<Turn>, c: J.Codec): seq<Message> {
    if turns == [] then [] else Received(turns[..|turns| - 1], c) + TurnMessages(turns[|turns| - 1], c)
  }

  function FromAnthropic(r: Request, c: J.Codec): seq<Message> {
    (if r.system != "" then [System(false, Str(r.system))] else []) + Received(r.turns, c)
  }

  /** Takes one turn apart. */
  method MessageToPivot(t: Turn, c: J.Codec) returns (out: seq<Message>)
    ensures out == TurnMessages(t, c)
  {
    var texts: seq<string> := [];
    var calls: seq<Call> := [];
    var reasoning := "";
    out := [];
    for k := 0 to |t.blocks|
      invariant Taken(texts, calls, out, reasoning) == Take(t.blocks[..k], c)
    {
      assert t.blocks[..k + 1][..k] == t.blocks[..k];
      match t.blocks[k] {
        case Text(s) => texts := texts + [s];
        case ToolUse(id, name, input) => calls := calls + [Call(id, C.Trunc(name, NAME_LIMIT), ArgumentsOf(input, c))];
        case ToolResult(id, content) => out := out + [Tool(id, Str(content))];
        case Thinking(s) =>
          if s != "" {
            if reasoning != "" {
              reasoning := reasoning + "\n";
            }
            reasoning := reasoning + s;
          }
      }
    }
    assert t.blocks[..|t.blocks|] == t.blocks;
    if texts != [] || calls != [] || reasoning != "" {
      out := out + [Spoken(t.role, ContentOf(texts), calls, reasoning)];
    }
  }

  /** Takes the turns apart one after another. */
  method AnthropicToPivot(r: Request, c: J.Codec) returns (ms: seq<Message>)
    ensures ms == FromAnthropic(r, c)
  {
    hide TurnMessages;
    ms := [];
    if r.system != "" {
      ms := [System(false, Str(r.system))];
    }
    ghost var head := ms;
    assert head + [] == head;
    for i := 0 to |r.turns|
      invariant ms == head + Received(r.turns[..i], c)
    {
      assert r.turns[..i + 1] == r.turns[..i] + [r.turns[i]];
      ReceivedSnoc(r.turns[..i], r.turns[i], c);
      var out := MessageToPivot(r.turns[i], c);
      assert ms + out == head + (Received(r.turns[..i], c) + out);
      ms := ms + out;
    }
    assert r.turns[..|r.turns|] == r.turns;
  }

  // ---- What each direction says, block by block and message by message ----

  function TextsIn(blocks: seq<Block>): seq<string> {
    if blocks == [] then []
    else
      var b := blocks[|blocks| - 1];
      TextsIn(blocks[..|blocks| - 1]) + if b.Text? then [b.s] else []
  }

  function CallsIn(blocks: seq<Block>, c: J.Codec): seq<Call> {
    if blocks == [] then []
    else
      var b := blocks[|blocks| - 1];
      CallsIn(blocks[..|blocks| - 1], c)
      + if b.ToolUse?
        then [Call(b.id, if |b.name| <= 128 then b.name else b.name[..128], ArgumentsOf(b.input, c))]
        else []
  }

  function ResultsIn(blocks: seq<Block>): seq<Message> {
    if blocks == [] then []
    else
      var b := blocks[|blocks| - 1];
      ResultsIn(blocks[..|blocks| - 1]) + if b.ToolResult? then [Tool(b.id, Str(b.content))] else []
  }

  function ThoughtsIn(blocks: seq<Block>): seq<string> {
    if blocks == [] then []
    else
      var b := blocks[|blocks| - 1];
      ThoughtsIn(blocks[..|blocks| - 1]) + if b.Thinking? then [b.s] else []
  }

  lemma {:induction false} TakeExactly(blocks: seq<Block>, c: J.Codec)
    ensures Take(blocks, c) ==
      Taken(TextsIn(blocks), CallsIn(blocks, c), ResultsIn(blocks), JoinText(Parts(ThoughtsIn(blocks))))
  {
    if blocks == [] {
      JoinTextParts([], "");
    } else {
      hide JoinText;
      var init, b := blocks[..|blocks| - 1], blocks[|blocks| - 1];
      TakeExactly(init, c);
      TakeThought(init, b);
    }
  }

  lemma TakeThought(blocks: seq<Block>, b: Block)
    ensures b.Thinking? ==>
      JoinText(Parts(ThoughtsIn(blocks) + [b.s])) ==
      (if b.s == "" then JoinText(Parts(ThoughtsIn(blocks)))
       else if JoinText(Parts(ThoughtsIn(blocks))) == "" then b.s
       else JoinText(Parts(ThoughtsIn(blocks))) + "\n" + b.s)
    ensures ThoughtsIn(blocks) + [] == ThoughtsIn(blocks) && TextsIn(blocks) + [] == TextsIn(blocks)
    ensures ResultsIn(blocks) + [] == ResultsIn(blocks)
  {
    if b.Thinking? {
      JoinTextParts(ThoughtsIn(blocks), b.s);
      AllNonEmpty(ThoughtsIn(blocks));
      JoinSays(NonEmpty(ThoughtsIn(blocks)));
    }
  }

  lemma {:induction false} JoinSays(texts: seq<string>)
    requires forall t <- texts :: t != ""
    ensures Join(texts, "\n") == "" <==> texts == []
  {
    if |texts| > 1 {
      assert texts[0] in texts;
    } else if |texts| == 1 {
      assert texts[0] in texts;
    }
  }

  /** A turn, whatever its blocks, becomes its tool results, in order, and then one message of
      its role with its texts, its calls, and its reasoning one block a line; no such message
      if it has none of the three. */
  lemma TurnIsTakenApart(t: Turn, c: J.Codec)
    ensures
      var texts, calls, thought := TextsIn(t.blocks), CallsIn(t.blocks, c), JoinText(Parts(ThoughtsIn(t.blocks)));
      TurnMessages(t, c) ==
      ResultsIn(t.blocks)
      + if texts == [] && calls == [] && thought == "" then [] else [Spoken(t.role, ContentOf(texts), calls, thought)]
  {
    TakeExactly(t.blocks, c);
    assert ResultsIn(t.blocks) + [] == ResultsIn(t.blocks);
  }

  /** The texts of the system and developer messages that say something. */
  function SystemTexts(ms: seq<Message>): seq<string> {
    if ms == [] then []
    else
      var m := ms[|ms| - 1];
      SystemTexts(ms[..|ms| - 1]) + if m.System? && JoinText(m.content) != "" then [JoinText(m.content)] else []
  }

  /** All system texts are sent, in order, a blank line between them. */
  lemma SystemIsSent(ms: seq<Message>, c: J.Codec)
    ensures ToAnthropic(ms, c).system == Join(SystemTexts(ms), "\n\n")
  {
    SystemGathers(ms, c);
  }

  lemma {:induction false} SystemGathers(ms: seq<Message>, c: J.Codec)
    ensures Send(ms, c).system == SystemTexts(ms)
  {
    hide JoinText;
    if ms != [] {
      var init := ms[..|ms| - 1];
      SystemGathers(init, c);
      assert SystemTexts(init) + [] == SystemTexts(init);
    }
  }

  // ---- There and back ----

  /** What is left of the calls: the named ones, with their names cut to size. */
  function KeptCalls(calls: seq<Call>, c: J.Codec): seq<Call> {
    if calls == [] then []
    else
      var call := calls[|calls| - 1];
      KeptCalls(calls[..|calls| - 1], c) + if TrimSpace(call.name) != "" then [KeptCall(call, c)] else []
  }

  function KeptCall(call: Call, c: J.Codec): Call {
    Call(IdOf(call.id), C.Trunc(CallName(call.name), NAME_LIMIT), ArgumentsOf(InputOf(call.arguments, c), c))
  }

  /** What is left of a message that is not a system message. */
  function Kept(m: Message, c: J.Codec): seq<Message> {
    match m
    case Spoken(role, content, calls, _) =>
      var kept := if role.AssistantRole? then KeptCalls(calls, c) else [];
      if TextsOf(content) == [] && kept == [] then [] else [Spoken(role, ContentOf(TextsOf(content)), kept, "")]
    case Tool(id, content) => [Tool(IdOf(id), Str(ResultText(content)))]
    case _ => []
  }

  function KeptAll(ms: seq<Message>, c: J.Codec): seq<Message> {
    if ms == [] then [] else KeptAll(ms[..|ms| - 1], c) + Kept(ms[|ms| - 1], c)
  }

  lemma TakeSnoc(blocks: seq<Block>, b: Block, c: J.Codec)
    ensures Take(blocks + [b], c) == TakeOne(Take(blocks, c), b, c)
  {
    assert (blocks + [b])[..|blocks|] == blocks;
  }

  lemma {:induction false} TakeTexts(texts: seq<string>, c: J.Codec)
    ensures Take(TextBlocks(texts), c) == Taken(texts, [], [], "")
  {
    if texts != [] {
      var n := |texts| - 1;
      TakeTexts(texts[..n], c);
      assert TextBlocks(texts) == TextBlocks(texts[..n]) + [Text(texts[n])];
      TakeSnoc(TextBlocks(texts[..n]), Text(texts[n]), c);
      assert texts[..n] + [texts[n]] == texts;
    }
  }

  lemma {:induction false} TakeUses(texts: seq<string>, calls: seq<Call>, c: J.Codec)
    ensures Take(TextBlocks(texts) + Uses(calls, c), c) == Taken(texts, KeptCalls(calls, c), [], "")
  {
    var blocks := TextBlocks(texts);
    if calls == [] {
      TakeTexts(texts, c);
      assert blocks + [] == blocks;
    } else {
      var init, call := calls[..|calls| - 1], calls[|calls| - 1];
      TakeUses(texts, init, c);
      if TrimSpace(call.name) != "" {
        TakeSnoc(blocks + Uses(init, c), UseOf(call, c), c);
        assert blocks + (Uses(init, c) + [UseOf(call, c)]) == blocks + Uses(init, c) + [UseOf(call, c)];
      } else {
        assert Uses(init, c) + [] == Uses(init, c) && KeptCalls(init, c) + [] == KeptCalls(init, c);
      }
    }
  }

  /** Gathered results give back the tool messages they were gathered from. */
  predicate Results(blocks: seq<Block>, ms: seq<Message>) {
    && |blocks| == |ms|
    && forall i :: 0 <= i < |ms| ==> blocks[i].ToolResult? && ms[i] == Tool(blocks[i].id, Str(blocks[i].content))
  }

  lemma {:induction false} TakeResults(blocks: seq<Block>, ms: seq<Message>, c: J.Codec)
    requires Results(blocks, ms)
    ensures Take(blocks, c) == Taken([], [], ms, "")
  {
    if blocks != [] {
      var n := |blocks| - 1;
      TakeResults(blocks[..n], ms[..n], c);
      assert ms[..n] + [ms[n]] == ms;
    }
  }

  lemma ReceivedSnoc(turns: seq<Turn>, t: Turn, c: J.Codec)
    ensures Received(turns + [t], c) == Received(turns, c) + TurnMessages(t, c)
  {
    assert (turns + [t])[..|turns|] == turns;
  }

  /** The finished turns and the gathered results together say what was kept so far. */
  ghost predicate Says(s: Sending, said: seq<Message>, c: J.Codec) {
    exists results :: Results(s.pending, results) && Received(s.turns, c) + results == said
  }

  lemma FlushSays(s: Sending, said: seq<Message>, c: J.Codec)
    requires Says(s, said, c)
    ensures Received(Flushed(s).turns, c) == said && Flushed(s).pending == []
  {
    var results :| Results(s.pending, results) && Received(s.turns, c) + results == said;
    if s.pending == [] {
      assert Received(s.turns, c) + [] == Received(s.turns, c);
    } else {
      TakeResults(s.pending, results, c);
      ReceivedSnoc(s.turns, Turn(UserRole, s.pending), c);
    }
  }

  lemma Settled(s: Sending, said: seq<Message>, c: J.Codec)
    requires s.pending == [] && Received(s.turns, c) == said
    ensures Says(s, said, c)
  {
    assert Results(s.pending, []) && said + [] == said;
  }

  lemma SaysSpoken(s: Sending, said: seq<Message>, m: Message, c: J.Codec)
    requires Says(s, said, c) && m.Spoken?
    ensures Says(SendOne(s, m, c), said + Kept(m, c), c)
  {
    hide Says, Received, Take, Uses, TextsOf;
    FlushSays(s, said, c);
    var texts, next := TextsOf(m.content), SendOne(s, m, c);
    var blocks := TextBlocks(texts) + if m.role.AssistantRole? then Uses(m.calls, c) else [];
    if m.role.AssistantRole? {
      TakeUses(texts, m.calls, c);
    } else {
      TakeTexts(texts, c);
      assert TextBlocks(texts) + [] == TextBlocks(texts);
    }
    if m.role.AssistantRole? && blocks == [] {
      NothingTaken(c);
      assert said + [] == said;
    } else {
      ReceivedSnoc(Flushed(s).turns, Turn(m.role, blocks), c);
      assert [] + [Spoken(m.role, ContentOf(texts), Take(blocks, c).calls, "")] ==
        [Spoken(m.role, ContentOf(texts), Take(blocks, c).calls, "")];
    }
    Settled(next, said + Kept(m, c), c);
  }

  lemma NothingTaken(c: J.Codec)
    ensures Take([], c) == Taken([], [], [], "")
  {
  }

  lemma SaysTool(s: Sending, said: seq<Message>, m: Message, c: J.Codec)
    requires Says(s, said, c) && m.Tool?
    ensures Says(SendOne(s, m, c), said + Kept(m, c), c)
  {
    var results :| Results(s.pending, results) && Received(s.turns, c) + results == said;
    assert Results(SendOne(s, m, c).pending, results + Kept(m, c));
    assert Received(s.turns, c) + (results + Kept(m, c)) == said + Kept(m, c);
  }

  lemma SaysOther(s: Sending, said: seq<Message>, m: Message, c: J.Codec)
    requires Says(s, said, c) && !m.Tool? && !m.Spoken?
    ensures Says(SendOne(s, m, c), said + Kept(m, c), c)
  {
    var results :| Results(s.pending, results) && Received(s.turns, c) + results == said;
    assert said + [] == said && SendOne(s, m, c).pending == s.pending && SendOne(s, m, c).turns == s.turns;
  }

  lemma {:induction false} SendSays(ms: seq<Message>, c: J.Codec)
    ensures Says(Send(ms, c), KeptAll(ms, c), c)
  {
    if ms == [] {
      Settled(Send(ms, c), [], c);
    } else {
      var init, m := ms[..|ms| - 1], ms[|ms| - 1];
      SendSays(init, c);
      if m.Spoken? { SaysSpoken(Send(init, c), KeptAll(init, c), m, c); }
      else if m.Tool? { SaysTool(Send(init, c), KeptAll(init, c), m, c); }
      else { SaysOther(Send(init, c), KeptAll(init, c), m, c); }
    }
  }

  /** However tool results, calls and texts follow each other: taking the gathered results
      apart restores every message in its place. */
  lemma ThereAndBack(ms: seq<Message>, c: J.Codec)
    ensures FromAnthropic(ToAnthropic(ms, c), c) ==
      (if Join(Send(ms, c).system, "\n\n") != "" then [System(false, Str(Join(Send(ms, c).system, "\n\n")))] else [])
      + KeptAll(ms, c)
  {
    SendSays(ms, c);
    FlushSays(Send(ms, c), KeptAll(ms, c), c);
  }

  // ---- What comes back unchanged ----

  predicate NormalCall(call: Call, c: J.Codec) {
    && call.id != "" && call.name != "" && TrimSpace(call.name) == call.name && |call.name| <= NAME_LIMIT
    && Canonical(call.arguments, c)
  }

  /** Text and tools only: tidy contents, no reasoning, named and identified calls of the
      assistant with printed objects for arguments, identified results that are strings. */
  predicate NormalMessage(m: Message, c: J.Codec) {
    match m
    case Spoken(role, content, calls, reasoning) =>
      && Tidy(content) && reasoning == ""
      && (role.UserRole? ==> calls == [])
      && (forall call <- calls :: NormalCall(call, c))
      && (content.Null? ==> calls != [])
    case Tool(id, content) => id != "" && content.Str?
    case _ => false
  }

  /** Normal messages after at most one system message, which comes first and says something. */
  predicate Normal(ms: seq<Message>, c: J.Codec) {
    if ms != [] && ms[0].System?
    then
      && !ms[0].developer && ms[0].content.Str? && ms[0].content.s != ""
      && forall i :: 1 <= i < |ms| ==> NormalMessage(ms[i], c)
    else forall i :: 0 <= i < |ms| ==> NormalMessage(ms[i], c)
  }

  lemma CallExactly(call: Call, c: J.Codec)
    requires J.Faithful(c) && TrimSpace(call.name) != ""
    ensures KeptCall(call, c) == call <==> NormalCall(call, c)
  {
    TrimShortens(call.name);
    TrimShortens(TrimLeft(call.name));
    CanonicalExactly(call.arguments, c);
  }

  lemma {:induction false} CallsExactly(calls: seq<Call>, c: J.Codec)
    requires J.Faithful(c)
    ensures |KeptCalls(calls, c)| <= |calls|
    ensures KeptCalls(calls, c) == calls <==> forall call <- calls :: NormalCall(call, c)
  {
    hide NormalCall, KeptCall, TrimSpace;
    if calls != [] {
      var init, call := calls[..|calls| - 1], calls[|calls| - 1];
      assert calls == init + [call];
      CallsExactly(init, c);
      if TrimSpace(call.name) != "" {
        CallExactly(call, c);
        assert KeptCalls(calls, c) == calls ==> KeptCalls(calls, c)[..|KeptCalls(init, c)|] == KeptCalls(init, c);
      } else {
        NamelessCall(call, c);
      }
    }
  }

  lemma NamelessCall(call: Call, c: J.Codec)
    requires TrimSpace(call.name) == ""
    ensures !NormalCall(call, c)
  {
  }

  lemma MessageExactly(m: Message, c: J.Codec)
    requires J.Faithful(c)
    ensures |Kept(m, c)| <= 1
    ensures Kept(m, c) == [m] <==> NormalMessage(m, c)
  {
    hide KeptCalls, NormalCall;
    if m.Spoken? {
      TidyExactly(m.content);
      CallsExactly(m.calls, c);
      TextsOfTidy(m.content);
    }
  }

  lemma TextsOfTidy(content: Content)
    ensures Tidy(content) ==> (TextsOf(content) == [] <==> content.Null?)
  {
    if content.Parts? {
      AllNonEmpty(content.texts);
    }
  }

  lemma {:induction false} AllExactly(ms: seq<Message>, c: J.Codec)
    requires J.Faithful(c)
    ensures |KeptAll(ms, c)| <= |ms|
    ensures KeptAll(ms, c) == ms <==> forall i :: 0 <= i < |ms| ==> NormalMessage(ms[i], c)
  {
    hide Kept, NormalMessage;
    if ms != [] {
      var init, m := ms[..|ms| - 1], ms[|ms| - 1];
      assert ms == init + [m];
      AllExactly(init, c);
      MessageExactly(m, c);
      if KeptAll(ms, c) == ms {
        assert |Kept(m, c)| == 1;
        assert KeptAll(ms, c)[..|KeptAll(init, c)|] == KeptAll(init, c);
        assert KeptAll(ms, c)[|KeptAll(init, c)|] == Kept(m, c)[0];
      }
    }
  }

  lemma {:induction false} KeptCons(m: Message, ms: seq<Message>, c: J.Codec)
    requires m.System?
    ensures KeptAll([m] + ms, c) == KeptAll(ms, c)
    ensures (forall n <- ms :: !n.System?) ==>
              Send([m] + ms, c).system == if JoinText(m.content) != "" then [JoinText(m.content)] else []
  {
    var all := [m] + ms;
    if ms == [] {
      assert all == [m] && all[..0] == [];
      assert Send([], c) == Sending([], [], []);
    } else {
      var n := |ms| - 1;
      assert all[..n + 1] == [m] + ms[..n];
      KeptCons(m, ms[..n], c);
    }
  }

  lemma {:induction false} NoSystem(ms: seq<Message>, c: J.Codec)
    requires forall n <- ms :: !n.System?
    ensures Send(ms, c).system == []
  {
    if ms != [] {
      NoSystem(ms[..|ms| - 1], c);
    }
  }

  /** A conversation comes back unchanged if and only if it is normal. */
  lemma UnchangedExactly(ms: seq<Message>, c: J.Codec)
    requires J.Faithful(c)
    ensures FromAnthropic(ToAnthropic(ms, c), c) == ms <==> Normal(ms, c)
  {
    hide Send, Received, KeptAll, NormalMessage, ToAnthropic, FromAnthropic;
    ThereAndBack(ms, c);
    var text := Join(Send(ms, c).system, "\n\n");
    var lead := if text != "" then [System(false, Str(text))] else [];
    if ms != [] && ms[0].System? {
      var m, rest := ms[0], ms[1..];
      assert ms == [m] + rest;
      KeptCons(m, rest, c);
      AllExactly(rest, c);
      NormalNotSystem(rest, c);
      AllSpeaks(rest, c);
      if Normal(ms, c) {
        assert lead == [m];
      }
    } else {
      AllExactly(ms, c);
      NormalNotSystem(ms, c);
      if Normal(ms, c) {
        NoSystem(ms, c);
      }
    }
  }

  lemma NormalNotSystem(ms: seq<Message>, c: J.Codec)
    ensures (forall i :: 0 <= i < |ms| ==> NormalMessage(ms[i], c)) ==> forall n <- ms :: !n.System?
  {
  }

  lemma {:induction false} AllSpeaks(ms: seq<Message>, c: J.Codec)
    ensures forall m <- KeptAll(ms, c) :: !m.System?
  {
    if ms != [] {
      AllSpeaks(ms[..|ms| - 1], c);
    }
  }
}
