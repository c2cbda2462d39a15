/** The records of the chat client: messages, sessions and the theme (types.ts). */
module Types {

  datatype Option<+T> = None | Some(value: T)

  datatype Result<+R, +E> = Success(value: R) | Failure(error: E)

  /** The author of a message: the person typing or the generating model. */
  datatype Role = User | Model

  /**
   * One chat message. `isError` is the optional flag of the source; an absent
   * flag is `false`. `content` is the text, which grows while a reply streams in.
   */
  datatype Message = Message(id: string, role: Role, content: string, timestamp: int, isError: bool)

  /** A stored conversation: its id, its derived title and a snapshot of its transcript. */
  datatype ChatSession = ChatSession(id: string, title: string, messages: seq<Message>, createdAt: int)

  datatype Theme = Dark | Light

  /** The value the theme takes in storage and as the document's class name. */
  function ThemeName(t: Theme): (name: string)
    ensures name == "dark" <==> t == Dark
    ensures name == "light" <==> t == Light
  {
    match t
    case Dark => "dark"
    case Light => "light"
  }

  /**
   * JavaScript truthiness of an optional string (a session id that may be
   * `null`, an environment variable that may be unset): absence and the empty
   * string are both falsy.
   */
  predicate Truthy(id: Option<string>)
  {
    id.Some? && id.value != ""
  }

  /** The ids of a transcript, in order. */
  function MessageIds(msgs: seq<Message>): (ids: seq<string>)
    ensures |ids| == |msgs|
    ensures forall i :: 0 <= i < |msgs| ==> ids[i] == msgs[i].id
  {
    seq(|msgs|, i requires 0 <= i < |msgs| => msgs[i].id)
  }

  /** The ids of a registry, in order. */
  function SessionIds(sessions: seq<ChatSession>): (ids: seq<string>)
    ensures |ids| == |sessions|
    ensures forall i :: 0 <= i < |sessions| ==> ids[i] == sessions[i].id
  {
    seq(|sessions|, i requires 0 <= i < |sessions| => sessions[i].id)
  }

  /** No two sessions of the registry share an id. */
  predicate UniqueIds(sessions: seq<ChatSession>)
  {
    forall i, j :: 0 <= i < j < |sessions| ==> sessions[i].id != sessions[j].id
  }
}
