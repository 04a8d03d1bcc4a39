/**
 * The older chat hook: one query for the user's chats with both
 * participants and their messages, each row flattened into a summary.
 */
module LegacyChats {
  import opened Records

  datatype Party = Party(id: Id, name: Option<string>, avatar_url: Option<string>)
  datatype LegacyMessage = LegacyMessage(id: Id, content: string, created_at: Millis, sender_id: Id)
  datatype LegacyRow = LegacyRow(id: Id, created_at: Millis, users: Option<Party>, other_user: Option<Party>, messages: seq<LegacyMessage>)

  /** The summary the list shows; `date` is the creation time before locale formatting. */
  datatype ChatSummary = ChatSummary(id: Id, name: string, lastMessage: string, date: Millis, avatar: Option<string>, unread: nat)

  const NoMessagesYet := "No messages yet"

  /** `name || id`: a missing or empty name falls back to the id. */
  function DisplayName(p: Party): (r: string)
    ensures p.name.Some? && p.name.value != "" ==> r == p.name.value
    ensures p.name.None? || p.name.value == "" ==> r == p.id
  {
    if p.name.Some? && p.name.value != "" then p.name.value else p.id
  }

  /** One row's summary; a row without the other participant cannot be summarised (reading its name throws). */
  function Summarize(row: LegacyRow): (r: Option<ChatSummary>)
    ensures r.Some? <==> row.other_user.Some?
    ensures r.Some? ==> r.value.id == row.id && r.value.unread == 0 && r.value.date == row.created_at
    ensures r.Some? ==> r.value.name == DisplayName(row.other_user.value) && r.value.avatar == row.other_user.value.avatar_url
    ensures r.Some? ==> r.value.lastMessage == if row.messages == [] then NoMessagesYet else row.messages[0].content
  {
    match row.other_user
    case None => None
    case Some(other) =>
      Some(ChatSummary(row.id, DisplayName(other),
                       if |row.messages| > 0 then row.messages[0].content else NoMessagesYet,
                       row.created_at, other.avatar_url, 0))
  }

  /** `data.map(...)`: every row summarised in order, or nothing if any row throws. */
  function SummarizeAll(rows: seq<LegacyRow>): (r: Option<seq<ChatSummary>>)
    ensures r.Some? <==> forall i :: 0 <= i < |rows| ==> rows[i].other_user.Some?
    ensures r.Some? ==> |r.value| == |rows| && forall i :: 0 <= i < |rows| ==> Some(r.value[i]) == Summarize(rows[i])
  {
    if rows == [] then Some([])
    else
      var rest := SummarizeAll(rows[1..]);
      assert forall i :: 1 <= i < |rows| ==> rows[i] == rows[1..][i - 1];
      if rows[0].other_user.None? || rest.None? then None
      else Some([Summarize(rows[0]).value] + rest.value)
  }

  /** Why the fetch failed: the query's error message, or a runtime type error while formatting. */
  datatype FeedError = QueryFailed(message: string) | TypeError

  class LegacyChatsHook {
    var chats: seq<ChatSummary>
    var loading: bool
    var error: Option<FeedError>

    constructor()
      ensures chats == [] && loading && error.None?
    {
      chats, loading, error := [], true, None;
    }

    /**
     * The mount effect with the query's reply as a parameter: the summaries
     * on success, otherwise the error with the previous list kept; loading
     * ends either way.
     */
    method Fetch(reply: Response<seq<LegacyRow>>)
      modifies this
      ensures !loading
      ensures reply.error.Some? ==> error == Some(QueryFailed(reply.error.value.message)) && chats == old(chats)
      ensures reply.error.None? && reply.data.Some? && SummarizeAll(reply.data.value).Some? ==>
        chats == SummarizeAll(reply.data.value).value && error == old(error)
      ensures reply.error.None? && (reply.data.None? || SummarizeAll(reply.data.value).None?) ==>
        error == Some(TypeError) && chats == old(chats)
    {
      loading := true;
      if reply.error.Some? {
        error := Some(QueryFailed(reply.error.value.message));
      } else if reply.data.None? {
        error := Some(TypeError);
      } else {
        var formatted := SummarizeAll(reply.data.value);
        if formatted.None? {
          error := Some(TypeError);
        } else {
          chats := formatted.value;
        }
      }
      loading := false;
    }
  }
}
