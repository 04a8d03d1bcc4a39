/**
 * The data hooks: `useChats` (fetch and enrich the user's chats, prepend
 * chats announced by the change feed), `useMessages` (fetch one chat's
 * messages and name their senders) and `useCreateChat` (build the payload
 * of the chat-creation procedure and report its failure). Every backend
 * reply is a parameter; the hooks' state is a class per hook.
 */
module Hooks {
  import opened Records

  /** The error code the backend gives `.single()` when no row matched. */
  const NoRowsCode := "PGRST116"

  /** A chat row with the replies of the three follow-up queries issued for it. */
  datatype ChatLookup = ChatLookup(
    row: Chat,
    tags: Response<seq<TagLabel>>,
    last: Response<Message>,
    unread: Response<seq<Id>>)

  /** A last-message reply is tolerated when it has no error or only the no-rows error. */
  predicate LastTolerated(last: Response<Message>) {
    last.error.None? || last.error.value.code == NoRowsCode
  }

  predicate LookupSucceeds(l: ChatLookup) {
    l.tags.error.None? && LastTolerated(l.last) && l.unread.error.None?
  }

  /** The error a failing lookup throws: the first failing query, in query order. */
  function LookupError(l: ChatLookup): Error
    requires !LookupSucceeds(l)
  {
    if l.tags.error.Some? then l.tags.error.value
    else if !LastTolerated(l.last) then l.last.error.value
    else l.unread.error.value
  }

  /**
   * One chat of `processedChats`: the row with `tags`, `lastMessage` and
   * `unreadCount` added.
   */
  function EnrichChat(l: ChatLookup): (r: Result<Chat>)
    ensures r.Ok? <==> LookupSucceeds(l)
    ensures r.Fail? ==> r.error == LookupError(l)
    ensures r.Ok? ==> r.value.(tags := l.row.tags, lastMessage := l.row.lastMessage, unreadCount := l.row.unreadCount) == l.row
    ensures r.Ok? ==> r.value.lastMessage == l.last.data
    ensures r.Ok? ==> r.value.tags == Some(if l.tags.data.Some? then l.tags.data.value else [])
    ensures r.Ok? ==> r.value.unreadCount == Some(if l.unread.data.Some? then |l.unread.data.value| else 0)
  {
    if l.tags.error.Some? then Fail(l.tags.error.value)
    else if !LastTolerated(l.last) then Fail(l.last.error.value)
    else if l.unread.error.Some? then Fail(l.unread.error.value)
    else
      var tags := match l.tags.data case Some(ts) => ts case None => [];
      var unread := match l.unread.data case Some(ids) => |ids| case None => 0;
      Ok(l.row.(tags := Some(tags), lastMessage := l.last.data, unreadCount := Some(unread)))
  }

  /**
   * `Promise.all` over the rows: every chat enriched, in row order, or the
   * error of a failing lookup (the first one in row order).
   */
  function ProcessChats(ls: seq<ChatLookup>): (r: Result<seq<Chat>>)
    ensures r.Ok? <==> forall i :: 0 <= i < |ls| ==> LookupSucceeds(ls[i])
    ensures r.Ok? ==> |r.value| == |ls|
    ensures r.Ok? ==> forall i :: 0 <= i < |ls| ==> Ok(r.value[i]) == EnrichChat(ls[i])
    ensures r.Fail? ==> exists i :: 0 <= i < |ls| && !LookupSucceeds(ls[i]) && r.error == LookupError(ls[i])
                          && forall j :: 0 <= j < i ==> LookupSucceeds(ls[j])
  {
    if ls == [] then Ok([])
    else match EnrichChat(ls[0])
      case Fail(e) => Fail(e)
      case Ok(c) =>
        match ProcessChats(ls[1..])
        case Fail(e) =>
          assert forall j :: 1 <= j < |ls| ==> ls[j] == ls[1..][j - 1];
          Fail(e)
        case Ok(cs) => Ok([c] + cs)
  }

  /** `msg.users?.name || "Unknown"`. */
  function SenderName(m: Message): (r: string)
    ensures r != []
    ensures m.users.Some? && m.users.value.name.Some? && m.users.value.name.value != [] ==> r == m.users.value.name.value
    ensures !(m.users.Some? && m.users.value.name.Some? && m.users.value.name.value != []) ==> r == "Unknown"
  {
    if m.users.Some? && m.users.value.name.Some? && m.users.value.name.value != [] then m.users.value.name.value
    else "Unknown"
  }

  /** `processedMessages`: every message with its `sender_name` set. */
  function ProcessMessages(ms: seq<Message>): (r: seq<Message>)
    ensures |r| == |ms|
    ensures forall i :: 0 <= i < |ms| ==> r[i].sender_name == Some(SenderName(ms[i]))
    ensures forall i :: 0 <= i < |ms| ==> r[i].(sender_name := ms[i].sender_name) == ms[i]
  {
    seq(|ms|, i requires 0 <= i < |ms| => ms[i].(sender_name := Some(SenderName(ms[i]))))
  }

  predicate OldestFirst(ms: seq<Message>) {
    forall i, j :: 0 <= i < j < |ms| ==> ms[i].created_at <= ms[j].created_at
  }

  /** Processing keeps the ascending `created_at` order the query asked for. */
  lemma ProcessMessagesKeepsOrder(ms: seq<Message>)
    ensures OldestFirst(ms) ==> OldestFirst(ProcessMessages(ms))
  {
  }

  /** The state of `useChats`. */
  class ChatsFeed {
    var chats: Option<seq<Chat>>
    var isLoading: bool
    var error: Option<Error>

    constructor()
      ensures chats == None && isLoading && error == None
    {
      chats, isLoading, error := None, true, None;
    }

    /**
     * One run of `fetchChats`. `user` is the authenticated user, if any;
     * `participants` the reply listing the user's chat ids; `rows` the
     * reply with the chat rows, each with its follow-up replies.
     */
    method FetchChats(user: Option<User>, participants: Response<seq<Id>>, rows: Response<seq<ChatLookup>>)
      modifies this
      ensures !isLoading
      ensures user.None? ==> chats == old(chats) && error == old(error)
      ensures user.Some? && participants.error.Some? ==>
        chats == old(chats) && error == Some(Normalize(participants.error.value, "Failed to fetch chats"))
      ensures user.Some? && participants.error.None? && (participants.data.None? || participants.data.value == []) ==>
        chats == Some([]) && error == old(error)
      ensures user.Some? && participants.error.None? && participants.data.Some? && participants.data.value != [] ==>
        match rows
        case Response(_, Some(e)) => chats == old(chats) && error == Some(Normalize(e, "Failed to fetch chats"))
        case Response(None, None) => chats == old(chats) && error == Some(NullDataTypeError)
        case Response(Some(ls), None) =>
          match ProcessChats(ls)
          case Ok(cs) => chats == Some(cs) && error == old(error)
          case Fail(e) => chats == old(chats) && error == Some(Normalize(e, "Failed to fetch chats"))
    {
      isLoading := true;
      if user.None? {
        isLoading := false;
        return;
      }
      if participants.error.Some? {
        error := Some(Normalize(participants.error.value, "Failed to fetch chats"));
        isLoading := false;
        return;
      }
      var chatIds := if participants.data.Some? then participants.data.value else [];
      if |chatIds| == 0 {
        chats := Some([]);
        isLoading := false;
        return;
      }
      if rows.error.Some? {
        error := Some(Normalize(rows.error.value, "Failed to fetch chats"));
      } else if rows.data.None? {
        error := Some(NullDataTypeError);
      } else {
        var processed := ProcessChats(rows.data.value);
        if processed.Fail? {
          error := Some(Normalize(processed.error, "Failed to fetch chats"));
        } else {
          chats := Some(processed.value);
        }
      }
      isLoading := false;
    }

    /**
     * The change feed's INSERT handler: once the new chat's row is fetched,
     * it goes in front of the list (an unknown list counts as empty).
     */
    method OnChatInsert(fetched: Response<Chat>)
      modifies this`chats
      ensures fetched.data.None? ==> chats == old(chats)
      ensures fetched.data.Some? ==>
        chats == Some([fetched.data.value] + if old(chats).Some? then old(chats).value else [])
    {
      if fetched.data.Some? {
        var prev := if chats.Some? then chats.value else [];
        chats := Some([fetched.data.value] + prev);
      }
    }
  }

  /** The state of `useMessages`. */
  class MessagesFeed {
    var messages: Option<seq<Message>>
    var isLoading: bool
    var error: Option<Error>

    constructor()
      ensures messages == None && isLoading && error == None
    {
      messages, isLoading, error := None, true, None;
    }

    /**
     * The effect run for `chatId`. With no chat id, or the empty one
     * (`!chatId` holds for both), no query is made (`queried` is false);
     * otherwise `fetched` is the reply to the
     * messages query.
     */
    method Load(chatId: Option<Id>, fetched: Response<seq<Message>>) returns (queried: bool)
      modifies this
      ensures queried <==> chatId.Some? && chatId.value != ""
      ensures !isLoading
      ensures !queried ==> messages == None && error == old(error)
      ensures queried ==>
        match fetched
        case Response(_, Some(e)) => messages == old(messages) && error == Some(Normalize(e, "Failed to fetch messages"))
        case Response(None, None) => messages == old(messages) && error == Some(NullDataTypeError)
        case Response(Some(ms), None) => messages == Some(ProcessMessages(ms)) && error == old(error)
    {
      if chatId.None? || chatId.value == "" {
        messages := None;
        isLoading := false;
        return false;
      }
      queried := true;
      isLoading := true;
      if fetched.error.Some? {
        error := Some(Normalize(fetched.error.value, "Failed to fetch messages"));
      } else if fetched.data.None? {
        error := Some(NullDataTypeError);
      } else {
        messages := Some(ProcessMessages(fetched.data.value));
      }
      isLoading := false;
    }
  }

  /** The arguments of `createChat(participants, name, tags)`. */
  datatype CreateChatArgs = CreateChatArgs(participants: seq<Id>, name: Option<string>, tags: seq<Id>)

  /** The arguments of the `create_chat_with_participants` procedure. */
  datatype RpcArgs = RpcArgs(chat_name: Option<string>, participant_ids: seq<Id>, tag_ids: seq<Id>, is_group: bool)

  /**
   * The procedure's payload: the chosen participants followed by the
   * current user, flagged as a group when more than one participant was chosen.
   */
  function RpcPayload(args: CreateChatArgs, userId: Id): (r: RpcArgs)
    ensures |r.participant_ids| == |args.participants| + 1
    ensures r.participant_ids[..|args.participants|] == args.participants
    ensures r.participant_ids[|args.participants|] == userId
    ensures r.is_group <==> |args.participants| >= 2
    ensures r.chat_name == args.name && r.tag_ids == args.tags
  {
    RpcArgs(args.name, args.participants + [userId], args.tags, |args.participants| > 1)
  }

  const NotAuthenticated := Error("", "Not authenticated", true)

  /** The state of `useCreateChat`. */
  class CreateChatHook {
    var isLoading: bool
    var error: Option<Error>

    constructor()
      ensures !isLoading && error == None
    {
      isLoading, error := false, None;
    }

    /**
     * `createChat(args)`. `user` is the authenticated user, `rpc` the
     * procedure's reply. `sent` is the payload sent to the procedure, if it
     * was called; `outcome` is the returned chat (possibly null) or the
     * rethrown error.
     */
    method CreateChat(args: CreateChatArgs, user: Option<User>, rpc: Response<Chat>)
      returns (sent: Option<RpcArgs>, outcome: Result<Option<Chat>>)
      modifies this
      ensures !isLoading
      ensures user.None? ==> sent == None && outcome == Fail(NotAuthenticated)
      ensures user.Some? ==> sent == Some(RpcPayload(args, user.value.id))
      ensures user.Some? && rpc.error.Some? ==> outcome == Fail(rpc.error.value)
      ensures user.Some? && rpc.error.None? ==> outcome == Ok(rpc.data)
      ensures outcome.Fail? ==> error == Some(Normalize(outcome.error, "Chat creation failed"))
      ensures outcome.Ok? ==> error == old(error)
    {
      isLoading := true;
      if user.None? {
        sent := None;
        outcome := Fail(NotAuthenticated);
      } else {
        sent := Some(RpcPayload(args, user.value.id));
        if rpc.error.Some? {
          outcome := Fail(rpc.error.value);
        } else {
          outcome := Ok(rpc.data);
        }
      }
      if outcome.Fail? {
        error := Some(Normalize(outcome.error, "Chat creation failed"));
      }
      isLoading := false;
    }
  }
}
