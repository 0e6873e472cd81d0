/** The messages of a chat request, the pivot of all request conversions. */
module Pivot {

  /** Message content: missing, a string, or a list of text parts. */
  datatype Content = Null | Str(s: string) | Parts(texts: seq<string>)

  datatype Call = Call(id: string, name: string, arguments: string)

  datatype Role = UserRole | AssistantRole

  datatype Message =
    | System(developer: bool, content: Content)
    | Spoken(role: Role, content: Content, calls: seq<Call>, reasoning: string)
    | Tool(callId: string, content: Content)
    | OtherRole

  const NAME_LIMIT := 128

  predicate IsSpace(c: char) {
    || c == ' ' || '\t' <= c <= '\r' || c == '\U{85}' || c == '\U{a0}' || c == '\U{1680}'
    || '\U{2000}' <= c <= '\U{200a}'
    || c == '\U{2028}' || c == '\U{2029}' || c == '\U{202f}' || c == '\U{205f}' || c == '\U{3000}'
  }

  function TrimLeft(s: string): string {
    if s != "" && IsSpace(s[0]) then TrimLeft(s[1..]) else s
  }

  function TrimRight(s: string): string {
    if s != "" && IsSpace(s[|s| - 1]) then TrimRight(s[..|s| - 1]) else s
  }

  function TrimSpace(s: string): string {
    TrimRight(TrimLeft(s))
  }

  lemma {:induction false} TrimShortens(s: string)
    ensures |TrimLeft(s)| <= |s| && |TrimRight(s)| <= |s|
  {
    if s != "" {
      TrimShortens(s[1..]);
      TrimShortens(s[..|s| - 1]);
    }
  }

  /** No space at either end. */
  predicate Trimmed(s: string) {
    s != "" ==> !IsSpace(s[0]) && !IsSpace(s[|s| - 1])
  }

  lemma {:induction false} TrimRightKeeps(s: string)
    ensures TrimRight(s) <= s && (TrimRight(s) != "" ==> !IsSpace(TrimRight(s)[|TrimRight(s)| - 1]))
    ensures s == "" || !IsSpace(s[|s| - 1]) ==> TrimRight(s) == s
    ensures TrimRight(s) == "" ==> forall i :: 0 <= i < |s| ==> IsSpace(s[i])
  {
    if s != "" {
      TrimRightKeeps(s[..|s| - 1]);
    }
  }

  lemma {:induction false} TrimLeftKeeps(s: string)
    ensures TrimLeft(s) != "" ==> !IsSpace(TrimLeft(s)[0])
    ensures s == "" || !IsSpace(s[0]) ==> TrimLeft(s) == s
  {
    if s != "" {
      TrimLeftKeeps(s[1..]);
    }
  }

  predicate Spaces(s: string) {
    forall i :: 0 <= i < |s| ==> IsSpace(s[i])
  }

  lemma {:induction false} RightEnd(s: string) returns (b: string)
    ensures s == TrimRight(s) + b && Spaces(b)
  {
    if s != "" && IsSpace(s[|s| - 1]) {
      var c := RightEnd(s[..|s| - 1]);
      b := c + [s[|s| - 1]];
      assert s == s[..|s| - 1] + [s[|s| - 1]];
      assert TrimRight(s) + c + [s[|s| - 1]] == TrimRight(s) + b;
    } else {
      b := "";
    }
  }

  lemma {:induction false} LeftEnd(s: string) returns (a: string)
    ensures s == a + TrimLeft(s) && Spaces(a)
  {
    if s != "" && IsSpace(s[0]) {
      var c := LeftEnd(s[1..]);
      a := [s[0]] + c;
      assert s == [s[0]] + s[1..];
      assert [s[0]] + (c + TrimLeft(s)) == a + TrimLeft(s);
    } else {
      a := "";
    }
  }

  /** Trimming takes nothing but spaces, and only from the ends. */
  lemma TrimSplits(s: string) returns (a: string, b: string)
    ensures s == a + TrimSpace(s) + b && Spaces(a) && Spaces(b)
  {
    a := LeftEnd(s);
    b := RightEnd(TrimLeft(s));
    assert a + (TrimSpace(s) + b) == a + TrimSpace(s) + b;
  }

  lemma TrimExactly(s: string)
    ensures Trimmed(TrimSpace(s))
    ensures TrimSpace(s) == s <==> Trimmed(s)
  {
    TrimLeftKeeps(s);
    TrimRightKeeps(TrimLeft(s));
  }

  /** The non-empty texts of a content, in order. */
  function NonEmpty(texts: seq<string>): seq<string> {
    if texts == [] then []
    else NonEmpty(texts[..|texts| - 1]) + if texts[|texts| - 1] != "" then [texts[|texts| - 1]] else []
  }

  function TextsOf(c: Content): seq<string> {
    match c
    case Null => []
    case Str(s) => if s != "" then [s] else []
    case Parts(texts) => NonEmpty(texts)
  }

  /** Texts as a content: a single one is a string. */
  function ContentOf(texts: seq<string>): Content {
    if texts == [] then Null else if |texts| == 1 then Str(texts[0]) else Parts(texts)
  }

  function Join(texts: seq<string>, separator: string): string {
    if texts == [] then ""
    else if |texts| == 1 then texts[0]
    else Join(texts[..|texts| - 1], separator) + separator + texts[|texts| - 1]
  }

  /** A content that says everything it says in the shortest way. */
  predicate Tidy(c: Content) {
    match c
    case Null => true
    case Str(s) => s != ""
    case Parts(texts) => |texts| >= 2 && forall t <- texts :: t != ""
  }

  lemma {:induction false} AllNonEmpty(texts: seq<string>)
    ensures forall t <- NonEmpty(texts) :: t != ""
    ensures (forall t <- texts :: t != "") ==> NonEmpty(texts) == texts
  {
    if texts != [] {
      var init, t := texts[..|texts| - 1], texts[|texts| - 1];
      assert texts == init + [t];
      AllNonEmpty(init);
      if forall x <- texts :: x != "" {
        assert forall x <- init :: x in texts;
        assert t in texts;
      }
    }
  }

  /** Exactly the tidy contents survive being taken apart and put together. */
  lemma TidyExactly(c: Content)
    ensures ContentOf(TextsOf(c)) == c <==> Tidy(c)
  {
    if c.Parts? {
      AllNonEmpty(c.texts);
    }
  }

  /** The non-empty texts of a content, one a line. */
  function JoinText(c: Content): string {
    match c
    case Null => ""
    case Str(s) => s
    case Parts(texts) => Join(NonEmpty(texts), "\n")
  }

  lemma JoinSnoc(texts: seq<string>, t: string, separator: string)
    requires texts != []
    ensures Join(texts + [t], separator) == Join(texts, separator) + separator + t
  {
    assert (texts + [t])[..|texts|] == texts;
  }

  /** The text of a list of parts: a part that says something stands in a line of its own, an
      empty one leaves no trace. */
  lemma JoinTextParts(texts: seq<string>, t: string)
    ensures JoinText(Parts([])) == ""
    ensures JoinText(Parts(texts + [t])) ==
      if t == "" then JoinText(Parts(texts))
      else if NonEmpty(texts) == [] then t
      else JoinText(Parts(texts)) + "\n" + t
  {
    hide Join, NonEmpty;
    NonEmptySnoc(texts, t);
    JoinFew(t, "\n");
    if t != "" && NonEmpty(texts) != [] {
      JoinSnoc(NonEmpty(texts), t, "\n");
    } else if t != "" {
      assert [] + [t] == [t];
    }
  }

  lemma NonEmptySnoc(texts: seq<string>, t: string)
    ensures NonEmpty([]) == [] && NonEmpty(texts + [t]) == if t != "" then NonEmpty(texts) + [t] else NonEmpty(texts)
  {
    assert (texts + [t])[..|texts|] == texts;
  }

  lemma JoinFew(t: string, separator: string)
    ensures Join([], separator) == "" && Join([t], separator) == t
  {
  }

  /** The identifier of a call; a generated one if it has none. */
  function IdOf(id: string): string {
    if id != "" then id else GENERATED
  }

  const GENERATED := "call_"
}
