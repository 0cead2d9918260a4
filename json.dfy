/**
 * The JSON documents the chat code reads, with the JSON library abstracted away.
 * parse_string(node, name, &str) succeeds exactly when the member is present and
 * is a string; here that is a `Some` field of the node.
 */
module Json {
  import opened Wrappers

  /** A JSON object reduced to the string members chat.c asks for. */
  datatype Node = Node(messageId: Option<string>, createdOn: Option<string>, content: Option<string>)

  /** A push event for a room: the outer object and its "record" member, when present. */
  datatype Event = Event(outer: Node, record: Option<Node>)

  /**
   * The reply to one history request: the elements of its "Messages" array (no
   * elements when the member is missing) and its "NextToken" string, when present.
   */
  datatype Page = Page(messages: seq<Node>, nextToken: Option<string>)
}
