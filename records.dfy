/**
 * The records the dashboard exchanges with its hosted backend (users, chats,
 * messages, tags) and the `{ data, error }` shape of every backend response.
 * Timestamps, which the backend sends as ISO strings, are integer
 * milliseconds here.
 */
module Records {

  datatype Option<T> = None | Some(value: T)

  type Id = string
  type Millis = int

  /**
   * A thrown value. `isInstance` records whether it is a JavaScript `Error`
   * object, which decides whether the hooks keep it or replace it with
   * their own fallback message.
   */
  datatype Error = Error(code: string, message: string, isInstance: bool)

  datatype Result<T> = Ok(value: T) | Fail(error: Error)

  /** The backend client's reply to a query: optional rows and an optional error. */
  datatype Response<T> = Response(data: Option<T>, error: Option<Error>)

  /** The error thrown when a reply carries neither data nor an error and the code calls `data.map`. */
  const NullDataTypeError := Error("", "Cannot read properties of null (reading 'map')", true)

  /** `err instanceof Error ? err : new Error(fallback)`. */
  function Normalize(err: Error, fallback: string): (r: Error)
    ensures r.isInstance
    ensures err.isInstance ==> r == err
    ensures !err.isInstance ==> r.message == fallback
  {
    if err.isInstance then err else Error("", fallback, true)
  }

  datatype User = User(
    id: Id,
    email: string,
    name: string,
    avatar_url: Option<string>,
    phone: Option<string>,
    created_at: Millis,
    updated_at: Millis)

  /** The sender columns a message query joins in (`users!sender_id(name, avatar_url)`). */
  datatype SenderJoin = SenderJoin(name: Option<string>, avatar_url: Option<string>)

  datatype Message = Message(
    id: Id,
    chat_id: Id,
    sender_id: Id,
    content: string,
    is_read: bool,
    sent_by: Option<string>,
    created_at: Millis,
    sender_name: Option<string>,
    users: Option<SenderJoin>)

  datatype Tag = Tag(id: Id, name: string, color: string, created_at: Millis)

  /** The tag columns a chat's tag query joins in (`tags(name, color)`). */
  datatype TagLabel = TagLabel(name: string, color: string)

  datatype Chat = Chat(
    id: Id,
    name: string,
    is_group: bool,
    avatar_url: Option<string>,
    phone: Option<string>,
    created_at: Millis,
    updated_at: Millis,
    lastMessage: Option<Message>,
    unreadCount: Option<nat>,
    tags: Option<seq<TagLabel>>)
}
