/** The items of a Responses request: the history of a conversation. */
module ResponsesItems {
  import opened Pivot

  datatype ItemRole = Speaker(role: Role) | SystemRole | DeveloperRole

  datatype Item =
    | MessageItem(role: ItemRole, content: Content)
    | FunctionCall(callId: string, name: string, namespace: string, arguments: string)
    | CustomCall(callId: string, name: string, namespace: string, input: string)
    | CallOutput(custom: bool, callId: string, output: string)
    | ReasoningItem(text: string)
    | OtherItem

  /** The input of a request: a text, or a list of items. */
  datatype Input = TextInput(s: string) | ListInput(list: seq<Item>)

  /** A text is a message of the user; an empty one is nothing. */
  function ItemsIn(input: Input): seq<Item> {
    match input
    case TextInput(s) => if s != "" then [MessageItem(Speaker(UserRole), Str(s))] else []
    case ListInput(list) => list
  }

  predicate IsCall(item: Item) {
    item.FunctionCall? || item.CustomCall?
  }
}
