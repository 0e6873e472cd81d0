/** Which content survives the way to a Messages client: text and reasoning always, the
    arguments of a tool call exactly when the calls come one after another. */
module AnthropicCalls {
  import opened Chat
  import opened AnthropicClient
  import opened AnthropicReply
  import R = ResponsesReply

  // ---- Text and reasoning ----

  /** The texts of all blocks of a kind, joined. */
  function Joined(parts: seq<Part>, kind: DeltaKind): string {
    if parts == [] then ""
    else Joined(parts[..|parts| - 1], kind) + if KindOf(Last(parts).block) == kind then Last(parts).text else ""
  }

  lemma JoinedGrown(parts: seq<Part>, p: Piece, kind: DeltaKind)
    requires Fragment(p) ==> parts != [] && Last(parts).block.ToolUse?
    ensures Joined(Grown(parts, p), kind) ==
      Joined(parts, kind) + match p
        case Text(s) => if kind == TextDelta then s else ""
        case Thought(s) => if kind == ThinkingDelta then s else ""
        case Call(e) => if kind == InputJsonDelta then e.args else ""
  {
    var grown := Grown(parts, p);
    if grown != [] {
      assert |grown| == |parts| + 1 ==> grown[..|grown| - 1] == parts;
      assert |grown| == |parts| ==> grown[..|grown| - 1] == parts[..|parts| - 1];
    }
  }

  /** Whatever the interleaving, the text blocks together say the text of the stream, and the
      thinking blocks its reasoning. */
  lemma {:induction false} TextSurvives(ps: seq<Piece>)
    requires Orderly(ps)
    ensures Joined(Parts(ps), TextDelta) == R.Content(ps, R.MessageKey)
    ensures Joined(Parts(ps), ThinkingDelta) == R.Content(ps, R.ThoughtKey)
  {
    if ps != [] {
      var init, p := ps[..|ps| - 1], ps[|ps| - 1];
      assert ps == init + [p];
      PartsSnoc(init, p);
      TextSurvives(init);
      JoinedGrown(Parts(init), p, TextDelta);
      JoinedGrown(Parts(init), p, ThinkingDelta);
      R.Snoc(init, p);
    }
  }

  // ---- Tool calls ----

  function Tools(parts: seq<Part>): seq<Part> {
    if parts == [] then []
    else Tools(parts[..|parts| - 1]) + if Last(parts).block.ToolUse? then [Last(parts)] else []
  }

  function Indexes(keys: seq<R.Key>): seq<int> {
    if keys == [] then []
    else
      var k := keys[|keys| - 1];
      Indexes(keys[..|keys| - 1]) + if k.CallKey? then [k.index] else []
  }

  /** The calls of a stream in the order of their first entries. */
  function Calls(ps: seq<Piece>): seq<int> {
    Indexes(R.Order(ps))
  }

  /** Every call is named by its first entry and by no other. */
  predicate Announced(ps: seq<Piece>) {
    forall i :: 0 <= i < |ps| && ps[i].Call? ==>
      (ps[i].entry.name != "" <==> R.CallKey(ps[i].entry.index) !in R.Order(ps[..i]))
  }

  /** Every fragment of arguments belongs to the call that was opened last. */
  predicate Sequential(ps: seq<Piece>) {
    forall i :: 0 <= i < |ps| && Fragment(ps[i]) ==>
      Calls(ps[..i]) != [] && Calls(ps[..i])[|Calls(ps[..i])| - 1] == ps[i].entry.index
  }

  /** The blocks the calls of a stream amount to: each with all of its own arguments. */
  function CallBlocks(ps: seq<Piece>): (r: seq<Part>)
    ensures |r| == |Calls(ps)|
  {
    CallsKnown(R.Order(ps));
    seq(|Calls(ps)|, t requires 0 <= t < |Calls(ps)| => CallBlock(ps, Calls(ps)[t]))
  }

  function CallBlock(ps: seq<Piece>, index: int): Part
    requires R.CallKey(index) in R.Order(ps)
  {
    Part(Opening(R.Opener(ps, index)), R.Content(ps, R.CallKey(index)))
  }

  lemma {:induction false} CallsKnown(keys: seq<R.Key>)
    ensures forall index :: index in Indexes(keys) <==> R.CallKey(index) in keys
  {
    if keys != [] {
      CallsKnown(keys[..|keys| - 1]);
      assert keys == keys[..|keys| - 1] + [keys[|keys| - 1]];
    }
  }

  lemma {:induction false} CallsDistinct(ps: seq<Piece>)
    ensures forall i, j :: 0 <= i < j < |Calls(ps)| ==> Calls(ps)[i] != Calls(ps)[j]
  {
    if ps != [] {
      var init, p := ps[..|ps| - 1], ps[|ps| - 1];
      assert ps == init + [p];
      CallsDistinct(init);
      CallsSnoc(init, p);
      CallsKnown(R.Order(init));
    }
  }

  lemma CallsSnoc(ps: seq<Piece>, p: Piece)
    ensures Calls(ps + [p]) == Calls(ps) + if p.Call? && p.entry.index !in Calls(ps) then [p.entry.index] else []
  {
    R.Snoc(ps, p);
    CallsKnown(R.Order(ps));
    assert (R.Order(ps) + [R.KeyOf(p)])[..|R.Order(ps)|] == R.Order(ps);
  }

  lemma AnnouncedSnoc(ps: seq<Piece>, p: Piece)
    ensures Announced(ps + [p]) ==
      (Announced(ps) && (p.Call? ==> (p.entry.name != "" <==> p.entry.index !in Calls(ps))))
    ensures Sequential(ps + [p]) ==
      (Sequential(ps) && (Fragment(p) ==> Calls(ps) != [] && Calls(ps)[|Calls(ps)| - 1] == p.entry.index))
  {
    var all := ps + [p];
    CallsKnown(R.Order(ps));
    assert all[..|ps|] == ps;
    assert forall i :: 0 <= i < |ps| ==> all[i] == ps[i] && all[..i] == ps[..i];
  }

  lemma ToolsGrown(parts: seq<Part>, p: Piece)
    requires p.Call?
    requires p.entry.name == "" && p.entry.args != "" ==> parts != [] && Last(parts).block.ToolUse?
    ensures Tools(Grown(parts, p)) ==
      if p.entry.name != "" then Tools(parts) + [Part(Opening(p.entry), p.entry.args)]
      else if p.entry.args == "" then Tools(parts)
      else Extended(Tools(parts), p.entry.args)
  {
    var e, n := p.entry, |parts|;
    if e.name != "" {
      assert Grown(parts, p)[..n] == parts;
    } else if parts != [] && Last(parts).block.ToolUse? {
      assert Grown(parts, p)[..n - 1] == parts[..n - 1];
      assert Tools(parts)[..|Tools(parts)| - 1] == Tools(parts[..n - 1]);
      if e.args == "" {
        ExtendNothing(parts);
      }
    }
  }

  lemma ToolsGrownOther(parts: seq<Part>, p: Piece)
    requires !p.Call?
    ensures Tools(Grown(parts, p)) == Tools(parts)
  {
    var grown, n := Grown(parts, p), |parts|;
    assert |grown| == n + 1 ==> grown[..n] == parts;
    assert |grown| == n ==> grown[..n - 1] == parts[..n - 1];
  }

  // ---- The lengths of the first blocks ----

  /** The summed length of the texts of the first `t` blocks. */
  function Volume(blocks: seq<Part>, t: nat): nat
    requires t <= |blocks|
  {
    if t == 0 then 0 else Volume(blocks, t - 1) + |blocks[t - 1].text|
  }

  lemma {:induction false} VolumePrefix(blocks: seq<Part>, b: Part, t: nat)
    requires t <= |blocks|
    ensures Volume(blocks + [b], t) == Volume(blocks, t)
  {
    if t != 0 {
      VolumePrefix(blocks, b, t - 1);
    }
  }

  lemma {:induction false} VolumeUpdate(blocks: seq<Part>, i: nat, s: string, t: nat)
    requires i < |blocks| && t <= |blocks|
    ensures Volume(blocks[i := Part(blocks[i].block, blocks[i].text + s)], t) ==
      Volume(blocks, t) + if i < t then |s| else 0
  {
    if t != 0 {
      VolumeUpdate(blocks, i, s, t - 1);
    }
  }

  /** The client's blocks against the calls': the same calls, the same volume in all, and
      the first blocks never hold more than the first calls said. */
  ghost predicate Balanced(got: seq<Part>, said: seq<Part>) {
    && |got| == |said|
    && (forall t :: 0 <= t < |got| ==> got[t].block == said[t].block)
    && Volume(got, |got|) == Volume(said, |said|)
    && (forall t :: 0 <= t <= |got| ==> Volume(got, t) <= Volume(said, t))
  }

  /** Some of the first blocks lack something. */
  ghost predicate Short(got: seq<Part>, said: seq<Part>)
    requires |got| == |said|
  {
    exists t :: 0 <= t <= |got| && Volume(got, t) < Volume(said, t)
  }

  // ---- One piece more ----

  /** A piece of text changes no call. */
  lemma OtherCallBlock(ps: seq<Piece>, p: Piece, t: nat)
    requires t < |Calls(ps)| && (p.Call? ==> Calls(ps)[t] != p.entry.index)
    ensures t < |Calls(ps + [p])| && Calls(ps + [p])[t] == Calls(ps)[t]
    ensures CallBlocks(ps + [p])[t] == CallBlocks(ps)[t]
  {
    hide R.Order, R.Content, R.Opener;
    CallsSnoc(ps, p);
    CallsKnown(R.Order(ps));
    assert Calls(ps)[t] in Calls(ps);
    R.Snoc(ps, p);
  }

  /** A piece of a known call extends its block. */
  lemma OwnCallBlock(ps: seq<Piece>, p: Piece, t: nat)
    requires p.Call? && t < |Calls(ps)| && Calls(ps)[t] == p.entry.index
    ensures t < |Calls(ps + [p])|
    ensures CallBlocks(ps + [p])[t] == Part(CallBlocks(ps)[t].block, CallBlocks(ps)[t].text + p.entry.args)
  {
    hide R.Order, R.Content, R.Opener;
    CallsSnoc(ps, p);
    CallsKnown(R.Order(ps));
    assert Calls(ps)[t] in Calls(ps);
    R.Snoc(ps, p);
  }

  lemma CallBlocksSame(ps: seq<Piece>, p: Piece)
    requires !p.Call?
    ensures CallBlocks(ps + [p]) == CallBlocks(ps)
  {
    hide CallBlocks, Calls;
    CallsSnoc(ps, p);
    forall t | 0 <= t < |Calls(ps)| ensures CallBlocks(ps + [p])[t] == CallBlocks(ps)[t] {
      OtherCallBlock(ps, p, t);
    }
  }

  lemma CallBlocksNew(ps: seq<Piece>, p: Piece)
    requires p.Call? && p.entry.index !in Calls(ps)
    ensures CallBlocks(ps + [p]) == CallBlocks(ps) + [Part(Opening(p.entry), p.entry.args)]
  {
    hide CallBlocks, Calls;
    CallsSnoc(ps, p);
    forall t | 0 <= t < |Calls(ps)| ensures CallBlocks(ps + [p])[t] == CallBlocks(ps)[t] {
      assert Calls(ps)[t] in Calls(ps);
      OtherCallBlock(ps, p, t);
    }
    NewCall(ps, p);
    LastCallBlock(ps, p);
  }

  lemma LastCallBlock(ps: seq<Piece>, p: Piece)
    requires p.Call? && p.entry.index !in Calls(ps) && R.CallKey(p.entry.index) in R.Order(ps + [p])
    ensures |Calls(ps + [p])| == |Calls(ps)| + 1
    ensures CallBlocks(ps + [p])[|Calls(ps)|] == CallBlock(ps + [p], p.entry.index)
  {
    hide CallBlock, R.Order;
    CallsSnoc(ps, p);
  }

  lemma CallBlocksKnown(ps: seq<Piece>, p: Piece, u: nat)
    requires p.Call? && u < |Calls(ps)| && Calls(ps)[u] == p.entry.index
    ensures CallBlocks(ps + [p]) ==
      CallBlocks(ps)[u := Part(CallBlocks(ps)[u].block, CallBlocks(ps)[u].text + p.entry.args)]
  {
    hide CallBlocks, Calls;
    CallsSnoc(ps, p);
    CallsDistinct(ps);
    assert p.entry.index in Calls(ps);
    OwnCallBlock(ps, p, u);
    forall t | 0 <= t < |Calls(ps)| && t != u ensures CallBlocks(ps + [p])[t] == CallBlocks(ps)[t] {
      assert Calls(ps)[t] != Calls(ps)[u];
      OtherCallBlock(ps, p, t);
    }
  }

  lemma NewCall(ps: seq<Piece>, p: Piece)
    requires p.Call? && p.entry.index !in Calls(ps)
    ensures R.CallKey(p.entry.index) in R.Order(ps + [p])
    ensures CallBlock(ps + [p], p.entry.index) == Part(Opening(p.entry), p.entry.args)
  {
    CallsKnown(R.Order(ps));
    R.Snoc(ps, p);
    R.Unheard(ps, R.KeyOf(p));
    assert (ps + [p])[..|ps|] == ps;
  }

  lemma OneOpened(got: seq<Part>, said: seq<Part>, b: Part)
    requires Balanced(got, said)
    ensures Balanced(got + [b], said + [b])
    ensures Short(got, said) ==> Short(got + [b], said + [b])
  {
    hide Volume;
    var n := |got|;
    forall t | 0 <= t <= n ensures Volume(got + [b], t) == Volume(got, t) && Volume(said + [b], t) == Volume(said, t) {
      VolumePrefix(got, b, t);
      VolumePrefix(said, b, t);
    }
    assert Volume(got + [b], n + 1) == Volume(said + [b], n + 1) by { VolumeLast(got, b); VolumeLast(said, b); }
    if Short(got, said) {
      var t :| 0 <= t <= n && Volume(got, t) < Volume(said, t);
      assert Volume(got + [b], t) < Volume(said + [b], t);
    }
  }

  lemma VolumeLast(blocks: seq<Part>, b: Part)
    ensures Volume(blocks + [b], |blocks| + 1) == Volume(blocks, |blocks|) + |b.text|
  {
    VolumePrefix(blocks, b, |blocks|);
  }

  /** A fragment of call `u` goes to the last block. */
  lemma OneFragment(got: seq<Part>, said: seq<Part>, u: nat, s: string)
    requires Balanced(got, said) && u < |got| && s != ""
    ensures
      var got' := Extended(got, s);
      var said' := said[u := Part(said[u].block, said[u].text + s)];
      && Balanced(got', said')
      && (Short(got, said) || u < |got| - 1 ==> Short(got', said'))
      && (u == |got| - 1 && got == said ==> got' == said')
  {
    hide Volume;
    var n := |got|;
    var got', said' := Extended(got, s), said[u := Part(said[u].block, said[u].text + s)];
    assert got' == got[n - 1 := Part(got[n - 1].block, got[n - 1].text + s)];
    forall t | 0 <= t <= n
      ensures Volume(got', t) == Volume(got, t) + if n - 1 < t then |s| else 0
      ensures Volume(said', t) == Volume(said, t) + if u < t then |s| else 0
    {
      VolumeUpdate(got, n - 1, s, t);
      VolumeUpdate(said, u, s, t);
    }
    if Short(got, said) {
      var t :| 0 <= t <= n && Volume(got, t) < Volume(said, t);
      assert Volume(got', t) < Volume(said', t);
    } else if u < n - 1 {
      assert Volume(got', n - 1) < Volume(said', n - 1);
    }
  }

  lemma NothingShort(blocks: seq<Part>)
    ensures !Short(blocks, blocks)
  {
  }

  /** The account of a stream: what the client got against what the calls said. */
  ghost predicate Accounted(ps: seq<Piece>) {
    && Balanced(Tools(Parts(ps)), CallBlocks(ps))
    && (if Sequential(ps) then Tools(Parts(ps)) == CallBlocks(ps) else Short(Tools(Parts(ps)), CallBlocks(ps)))
  }

  lemma AccountedSnoc(ps: seq<Piece>, p: Piece)
    requires Accounted(ps) && Announced(ps + [p]) && Orderly(ps + [p])
    ensures Accounted(ps + [p])
  {
    hide Announced, Orderly, Sequential, Parts, Tools, Balanced, Short, Calls, CallBlocks, Grown;
    PartsSnoc(ps, p);
    AnnouncedSnoc(ps, p);
    var got, said := Tools(Parts(ps)), CallBlocks(ps);
    if !p.Call? {
      ToolsGrownOther(Parts(ps), p);
      CallBlocksSame(ps, p);
    } else {
      var e := p.entry;
      ToolsGrown(Parts(ps), p);
      if e.name != "" {
        CallBlocksNew(ps, p);
        OneOpened(got, said, Part(Opening(e), e.args));
      } else {
        var u :| 0 <= u < |Calls(ps)| && Calls(ps)[u] == e.index;
        CallBlocksKnown(ps, p, u);
        if e.args == "" {
          assert said[u].text + "" == said[u].text;
          assert said[u := said[u]] == said;
        } else {
          BalancedLengths(got, said);
          OneFragment(got, said, u, e.args);
          CallsDistinct(ps);
        }
      }
    }
  }

  lemma BalancedLengths(got: seq<Part>, said: seq<Part>)
    requires Balanced(got, said)
    ensures |got| == |said|
  {
  }

  lemma {:induction false} Accounting(ps: seq<Piece>)
    requires Announced(ps) && Orderly(ps)
    ensures Accounted(ps)
  {
    if ps == [] {
      assert Parts(ps) == [] && Tools([]) == [] && CallBlocks(ps) == [];
    } else {
      var init, p := ps[..|ps| - 1], ps[|ps| - 1];
      assert ps == init + [p];
      PartsSnoc(init, p);
      AnnouncedSnoc(init, p);
      Accounting(init);
      AccountedSnoc(init, p);
    }
  }

  /** For every stream that the client can read and in which each call is named once, by its
      first entry: the client's tool blocks are the calls, in order, each with exactly its own
      arguments, if and only if the calls come one after another. */
  lemma CallsSurviveExactly(ps: seq<Piece>)
    requires Announced(ps) && Orderly(ps)
    ensures Sequential(ps) <==> Tools(Parts(ps)) == CallBlocks(ps)
  {
    Accounting(ps);
    NothingShort(CallBlocks(ps));
  }

  /** Two calls whose arguments interleave: the client gives all of them to the second. */
  lemma InterleavedCallsMix(a: string, b: string)
    requires a != "" && b != ""
    ensures
      var first, second := ToolEntry(0, "c0", "", "f", ""), ToolEntry(1, "c1", "", "g", "");
      var ps := [Call(first), Call(second), Call(ToolEntry(0, "", "", "", a)), Call(ToolEntry(1, "", "", "", b))];
      Parts(ps) == [Part(ToolUse("c0", "f"), ""), Part(ToolUse("c1", "g"), a + b)]
  {
    var first, second := ToolEntry(0, "c0", "", "f", ""), ToolEntry(1, "c1", "", "g", "");
    var p1, p2 := Call(first), Call(second);
    var p3, p4 := Call(ToolEntry(0, "", "", "", a)), Call(ToolEntry(1, "", "", "", b));
    PartsSnoc([], p1);
    PartsSnoc([p1], p2);
    PartsSnoc([p1, p2], p3);
    PartsSnoc([p1, p2, p3], p4);
    assert [] + [p1] == [p1] && [p1] + [p2] == [p1, p2] && [p1, p2] + [p3] == [p1, p2, p3];
    assert [p1, p2, p3] + [p4] == [p1, p2, p3, p4];
    assert "" + a == a;
  }
}
