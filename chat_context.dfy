/**
 * The session store (`ChatProvider`): current user, active chat, its
 * messages and the search term, the `sendMessage` step sequence, the two
 * chat-list rewrites and the derived `loading` / `error` flags.
 *
 * Wiring: the provider reads `setChats` from `useChats`, which returns no
 * such member. Both rewrites below are therefore computed by the source but
 * never committed: after a new-message event the `chats && setChats` guard
 * is false, and after a send the call to `setChats` throws and is caught
 * and logged. The provider's `chats` field is accordingly never modified by
 * any of its methods.
 */
module ChatContext {
  import opened Records
  import Seqs
  import Recency
  import Hooks

  /** The row `sendMessage` inserts into `messages`. */
  datatype MessageInsert = MessageInsert(chat_id: Id, sender_id: Id, content: string, sent_by: string)

  /** A call the store makes to the backend. */
  datatype BackendCall =
    | InsertMessage(row: MessageInsert)
    | TouchChat(chat_id: Id, updated_at: Millis, last_message: string)

  /** The inserted row: none without an active chat and a current user. */
  function InsertRow(activeChat: Option<Chat>, currentUser: Option<User>, content: string): (r: Option<MessageInsert>)
    ensures r.None? <==> activeChat.None? || currentUser.None?
    ensures r.Some? ==> r.value.chat_id == activeChat.value.id && r.value.content == content
    ensures r.Some? ==> r.value.sender_id == currentUser.value.id && r.value.sent_by == currentUser.value.email
  {
    if activeChat.None? || currentUser.None? then None
    else Some(MessageInsert(activeChat.value.id, currentUser.value.id, content, currentUser.value.email))
  }

  function OtherThan(id: Id): Chat -> bool {
    (c: Chat) => c.id != id
  }

  /** The list `sendMessage` computes after a send: the updated chat first, then every other chat. */
  function PostSendList(updated: Chat, chats: seq<Chat>, activeId: Id): (r: seq<Chat>)
    ensures |r| >= 1 && r[0] == updated
    ensures forall c :: c in r[1..] ==> c in chats && c.id != activeId
  {
    [updated] + Seqs.Filter(chats, OtherThan(activeId))
  }

  /** Every chat without the active id keeps its place relative to the others. */
  lemma PostSendListKeepsOrder(updated: Chat, chats: seq<Chat>, activeId: Id, more: seq<Chat>)
    ensures PostSendList(updated, chats + more, activeId)
         == PostSendList(updated, chats, activeId) + Seqs.Filter(more, OtherThan(activeId))
  {
    Seqs.FilterAppend(chats, more, OtherThan(activeId));
  }

  /** After the updated chat, each other chat appears as often as before, and the active chat's old copies are gone. */
  lemma PostSendListCounts(updated: Chat, chats: seq<Chat>, activeId: Id)
    ensures forall c :: multiset(PostSendList(updated, chats, activeId)[1..])[c]
                     == if c.id == activeId then 0 else multiset(chats)[c]
  {
    Seqs.FilterCount(chats, OtherThan(activeId));
    assert PostSendList(updated, chats, activeId)[1..] == Seqs.Filter(chats, OtherThan(activeId));
  }

  /** Rewriting the list twice for the same send gives the list of one rewrite. */
  lemma PostSendListIdempotent(updated: Chat, chats: seq<Chat>, activeId: Id)
    requires updated.id == activeId
    ensures PostSendList(updated, PostSendList(updated, chats, activeId), activeId)
         == PostSendList(updated, chats, activeId)
  {
    var p := OtherThan(activeId);
    var kept := Seqs.Filter(chats, p);
    assert Seqs.Filter([updated], p) == [] by {
      assert !p(updated);
      assert [updated][1..] == [];
    }
    Seqs.FilterAppend([updated], kept, p);
    Seqs.FilterIdempotent(chats, p);
    assert Seqs.Filter(PostSendList(updated, chats, activeId), p) == kept;
  }

  /**
   * The active chat as the new-message handler rewrites it: stamped `now`,
   * with a last message carrying the new content, sent now by the current
   * user. Its other fields are unchanged, and the last message keeps the
   * previous one's id (or "") and whatever else the spread of the previous
   * one carries.
   */
  function Bump(chat: Chat, activeId: Id, content: string, now: Millis, currentUser: Option<User>): (r: Chat)
    ensures r.(updated_at := chat.updated_at, lastMessage := chat.lastMessage) == chat
    ensures r.updated_at == now && r.lastMessage.Some?
    ensures r.lastMessage.value.content == content && r.lastMessage.value.chat_id == activeId
    ensures r.lastMessage.value.id == if chat.lastMessage.Some? then chat.lastMessage.value.id else ""
    ensures r.lastMessage.value.created_at == now
    ensures r.lastMessage.value.sender_id == if currentUser.Some? then currentUser.value.id else ""
    ensures r.lastMessage.value.sent_by == Some(if currentUser.Some? then currentUser.value.email else "")
    ensures chat.lastMessage.Some? ==>
      var prev := chat.lastMessage.value;
      r.lastMessage.value.(id := prev.id, chat_id := prev.chat_id, sender_id := prev.sender_id, content := prev.content,
                           sent_by := prev.sent_by, created_at := prev.created_at) == prev
    ensures chat.lastMessage.None? ==>
      !r.lastMessage.value.is_read && r.lastMessage.value.sender_name.None? && r.lastMessage.value.users.None?
  {
    var prev := chat.lastMessage;
    var last := Message(
      id := if prev.Some? then prev.value.id else "",
      chat_id := activeId,
      sender_id := if currentUser.Some? then currentUser.value.id else "",
      content := content,
      is_read := prev.Some? && prev.value.is_read,
      sent_by := Some(if currentUser.Some? then currentUser.value.email else ""),
      created_at := now,
      sender_name := if prev.Some? then prev.value.sender_name else None,
      users := if prev.Some? then prev.value.users else None);
    chat.(updated_at := now, lastMessage := Some(last))
  }

  function MarkActive(chats: seq<Chat>, activeId: Id, content: string, now: Millis, currentUser: Option<User>): (r: seq<Chat>)
    ensures |r| == |chats|
    ensures forall i :: 0 <= i < |chats| && chats[i].id != activeId ==> r[i] == chats[i]
    ensures forall i :: 0 <= i < |chats| && chats[i].id == activeId ==> r[i] == Bump(chats[i], activeId, content, now, currentUser)
  {
    seq(|chats|, i requires 0 <= i < |chats| =>
      if chats[i].id == activeId then Bump(chats[i], activeId, content, now, currentUser) else chats[i])
  }

  /** The list the new-message handler computes: the active chat bumped, then newest first. */
  function NewMessageList(chats: seq<Chat>, activeId: Id, content: string, now: Millis, currentUser: Option<User>): (r: seq<Chat>)
    ensures Recency.NewestFirst(r)
    ensures multiset(r) == multiset(MarkActive(chats, activeId, content, now, currentUser))
  {
    Recency.SortByRecency(MarkActive(chats, activeId, content, now, currentUser))
  }

  /**
   * Only the active chat changes: every entry of the rewritten list is an
   * untouched chat with another id, or a bumped copy of a chat with the active id.
   */
  lemma NewMessageTouchesOnlyActive(chats: seq<Chat>, activeId: Id, content: string, now: Millis, currentUser: Option<User>)
    ensures forall x :: x in NewMessageList(chats, activeId, content, now, currentUser) ==>
      || (x in chats && x.id != activeId)
      || (exists c :: c in chats && c.id == activeId && x == Bump(c, activeId, content, now, currentUser))
    ensures forall c :: c in chats && c.id != activeId ==> c in NewMessageList(chats, activeId, content, now, currentUser)
  {
    var m := MarkActive(chats, activeId, content, now, currentUser);
    var r := NewMessageList(chats, activeId, content, now, currentUser);
    forall x | x in r
      ensures || (x in chats && x.id != activeId)
              || (exists c :: c in chats && c.id == activeId && x == Bump(c, activeId, content, now, currentUser))
    {
      assert x in multiset(m);
      var i :| 0 <= i < |m| && m[i] == x;
      assert chats[i] in chats;
    }
    forall c | c in chats && c.id != activeId
      ensures c in r
    {
      var i :| 0 <= i < |chats| && chats[i] == c;
      assert m[i] in multiset(r);
    }
  }

  /** An entry of the marked list stamped `now` or later can only be a bumped active chat. */
  lemma LateEntryIsBumped(chats: seq<Chat>, activeId: Id, content: string, now: Millis, currentUser: Option<User>, k: int)
    requires 0 <= k < |chats|
    requires forall c :: c in chats && c.id != activeId ==> c.updated_at < now
    requires MarkActive(chats, activeId, content, now, currentUser)[k].updated_at >= now
    ensures MarkActive(chats, activeId, content, now, currentUser)[k] == Bump(chats[k], activeId, content, now, currentUser)
    ensures chats[k].id == activeId
  {
    assert chats[k] in chats;
  }

  /**
   * When `now` is later than every other chat's timestamp, the active chat
   * lands in front, stamped `now`, with the new content.
   */
  lemma NewMessageBumpsToFront(chats: seq<Chat>, activeId: Id, content: string, now: Millis, currentUser: Option<User>)
    requires exists i :: 0 <= i < |chats| && chats[i].id == activeId
    requires forall c :: c in chats && c.id != activeId ==> c.updated_at < now
    ensures var r := NewMessageList(chats, activeId, content, now, currentUser);
      && r != [] && r[0].id == activeId && r[0].updated_at == now
      && r[0].lastMessage.Some? && r[0].lastMessage.value.content == content
  {
    var m := MarkActive(chats, activeId, content, now, currentUser);
    var r := NewMessageList(chats, activeId, content, now, currentUser);
    var i :| 0 <= i < |chats| && chats[i].id == activeId;
    assert m[i].updated_at == now;
    assert m[i] in multiset(r);
    var j :| 0 <= j < |r| && r[j] == m[i];
    assert r[0].updated_at >= now;
    assert r[0] in multiset(m);
    var k :| 0 <= k < |m| && m[k] == r[0];
    LateEntryIsBumped(chats, activeId, content, now, currentUser, k);
  }

  /**
   * The exposed `chats`: sorted newest first in place, or null. (`[] || null`
   * is `[]`, so an empty list stays an empty list.)
   */
  function ExposedChats(chats: Option<seq<Chat>>): (r: Option<seq<Chat>>)
    ensures r.None? <==> chats.None?
    ensures r.Some? ==> Recency.NewestFirst(r.value) && multiset(r.value) == multiset(chats.value)
  {
    match chats
    case None => None
    case Some(cs) => Some(Recency.SortByRecency(cs))
  }

  /**
   * Shifts the chats before `i` that are strictly older than `chat` one place
   * right, and returns the gap this opens for `chat`.
   */
  method ShiftOlder(a: array<Chat>, i: int, chat: Chat) returns (j: int)
    requires 0 <= i < a.Length
    modifies a
    ensures 0 <= j <= i
    ensures forall k :: 0 <= k < j ==> a[k] == old(a[k])
    ensures forall k :: j < k <= i ==> a[k] == old(a[k - 1])
    ensures forall k :: i < k < a.Length ==> a[k] == old(a[k])
    ensures forall k :: j <= k < i ==> old(a[k]).updated_at < chat.updated_at
    ensures j > 0 ==> a[j - 1].updated_at >= chat.updated_at
  {
    j := i;
    while j > 0 && a[j - 1].updated_at < chat.updated_at
      invariant 0 <= j <= i
      invariant forall k :: 0 <= k < j ==> a[k] == old(a[k])
      invariant forall k :: j < k <= i ==> a[k] == old(a[k - 1])
      invariant forall k :: i < k < a.Length ==> a[k] == old(a[k])
      invariant forall k :: j <= k < i ==> old(a[k]).updated_at < chat.updated_at
    {
      a[j] := a[j - 1];
      j := j - 1;
    }
  }

  /**
   * One pass of the insertion sort: the chat at `i` moves left past every
   * strictly older chat, so the first `i + 1` chats are newest first.
   */
  method InsertBack(a: array<Chat>, i: int)
    requires 0 < i < a.Length
    requires forall p, q :: 0 <= p < q < i ==> a[p].updated_at >= a[q].updated_at
    modifies a
    ensures forall p, q :: 0 <= p < q <= i ==> a[p].updated_at >= a[q].updated_at
    ensures Recency.StablyRearranges(a[..], old(a[..]))
  {
    ghost var start := a[..];
    var chat := a[i];
    var j := ShiftOlder(a, i, chat);
    a[j] := chat;
    Recency.InsertedForward(a[..], start, j, i);
  }

  /**
   * `chats.sort(...)` on the hook's own array: an in-place insertion sort.
   * It is stable like `Array.prototype.sort`, so it leaves exactly the list
   * the functional sort of the exposed `chats` computes.
   */
  method SortNewestFirst(a: array<Chat>)
    modifies a
    ensures Recency.NewestFirst(a[..])
    ensures Recency.StablyRearranges(a[..], old(a[..]))
    ensures a[..] == Recency.SortByRecency(old(a[..]))
  {
    if a.Length == 0 {
      return;
    }
    var i := 1;
    while i < a.Length
      invariant 1 <= i <= a.Length
      invariant forall p, q :: 0 <= p < q < i ==> a[p].updated_at >= a[q].updated_at
      invariant Recency.StablyRearranges(a[..], old(a[..]))
    {
      ghost var before := a[..];
      InsertBack(a, i);
      Recency.RearrangesTransitive(a[..], before, old(a[..]));
      i := i + 1;
    }
    SortedAsFunction(a[..], old(a[..]));
  }

  /** A stable newest-first rearrangement is the functional sort of what it rearranges. */
  lemma SortedAsFunction(r: seq<Chat>, s: seq<Chat>)
    requires Recency.NewestFirst(r) && Recency.StablyRearranges(r, s)
    ensures r == Recency.SortByRecency(s)
  {
    forall t
      ensures Seqs.Filter(r, Recency.HasStamp(t)) == Seqs.Filter(Recency.SortByRecency(s), Recency.HasStamp(t))
    {
      Recency.SortStable(s, t);
    }
    Recency.StableOrderUnique(r, Recency.SortByRecency(s));
  }

  datatype Flags = Flags(chats: bool, messages: bool, users: bool, tags: bool)
  datatype ErrorFlags = ErrorFlags(chats: Option<Error>, messages: Option<Error>, users: Option<Error>, tags: Option<Error>)

  /** The provider's own state; `chats` is what `useChats` delivered. */
  class ChatProvider {
    var currentUser: Option<User>
    var activeChat: Option<Chat>
    var messages: Option<seq<Message>>
    var searchTerm: string
    var chats: Option<seq<Chat>>

    constructor(chats: Option<seq<Chat>>)
      ensures currentUser.None? && activeChat.None? && messages.None?
      ensures searchTerm == "" && this.chats == chats
    {
      currentUser, activeChat, messages := None, None, None;
      searchTerm := "";
      this.chats := chats;
    }

    /** `fetchCurrentUser`: the user row is kept only when there is a session and the row came back. */
    method LoadCurrentUser(sessionUser: Option<Id>, row: Response<User>)
      modifies this`currentUser
      ensures sessionUser.Some? && row.data.Some? ==> currentUser == row.data
      ensures sessionUser.None? || row.data.None? ==> currentUser == old(currentUser)
    {
      if sessionUser.Some? && row.data.Some? {
        currentUser := row.data;
      }
    }

    /** `setSearchTerm`, as the store exposes it. */
    method SetSearchTerm(term: string)
      modifies this`searchTerm
      ensures searchTerm == term
    {
      searchTerm := term;
    }

    /**
     * `setActiveChat` and the effect it triggers: clearing the chat clears
     * the messages; choosing a chat keeps the current messages until its
     * fetch completes.
     */
    method SetActiveChat(chat: Option<Chat>)
      modifies this`activeChat, this`messages
      ensures activeChat == chat
      ensures chat.None? ==> messages.None?
      ensures chat.Some? ==> messages == old(messages)
    {
      activeChat := chat;
      if chat.None? {
        messages := None;
      }
    }

    /**
     * A completed `fetchMessages` (run on selection and again on every
     * INSERT event of the chat's messages). Nothing cancels a fetch in
     * flight, so its reply is committed whatever the active chat is by
     * then, even after the chat was cleared. A failed fetch is logged and
     * leaves the messages as they were.
     */
    method ApplyMessagesFetch(fetched: Response<seq<Message>>)
      modifies this`messages
      ensures fetched.error.None? && fetched.data.Some? ==> messages == Some(Hooks.ProcessMessages(fetched.data.value))
      ensures fetched.error.Some? || fetched.data.None? ==> messages == old(messages)
    {
      if fetched.error.None? && fetched.data.Some? {
        messages := Some(Hooks.ProcessMessages(fetched.data.value));
      }
    }

    /**
     * `sendMessage(content)` at clock time `now`. `insertError` is the
     * insert's error, `touched` the reply of the chat update. Returns the
     * backend calls made and whether an error was logged. The store's state
     * is not changed: the list rewrite that follows a successful update
     * fails on the missing `setChats` and is only logged.
     */
    method SendMessage(content: string, now: Millis, insertError: Option<Error>, touched: Response<Chat>)
      returns (calls: seq<BackendCall>, logged: bool)
      ensures activeChat.None? || currentUser.None? ==> calls == [] && !logged
      ensures activeChat.Some? && currentUser.Some? ==>
        |calls| >= 1 && calls[0] == InsertMessage(InsertRow(activeChat, currentUser, content).value)
      ensures activeChat.Some? && currentUser.Some? && insertError.Some? ==> |calls| == 1 && logged
      ensures activeChat.Some? && currentUser.Some? && insertError.None? ==>
        && calls == [calls[0], TouchChat(activeChat.value.id, now, content)]
        && (logged <==> touched.data.Some? && chats.Some?)
    {
      if activeChat.None? || currentUser.None? {
        return [], false;
      }
      var row := InsertRow(activeChat, currentUser, content).value;
      calls := [InsertMessage(row)];
      if insertError.Some? {
        return calls, true;
      }
      calls := calls + [TouchChat(activeChat.value.id, now, content)];
      // `setChats(PostSendList(...))` throws here: `setChats` is undefined.
      logged := touched.data.Some? && chats.Some?;
    }

    /** The exposed `loading`; chats, users and tags come from their hooks. */
    function Loading(chatsLoading: bool, usersLoading: bool, tagsLoading: bool): (r: Flags)
      reads this
      ensures r.messages <==> activeChat.None? || messages.None?
      ensures r.chats == chatsLoading && r.users == usersLoading && r.tags == tagsLoading
    {
      Flags(chatsLoading, activeChat.None? || messages.None?, usersLoading, tagsLoading)
    }

    /** The exposed `error`: the messages slot is always null. */
    function Errors(chatsError: Option<Error>, usersError: Option<Error>, tagsError: Option<Error>): (r: ErrorFlags)
      ensures r.messages.None?
      ensures r.chats == chatsError && r.users == usersError && r.tags == tagsError
    {
      ErrorFlags(chatsError, None, usersError, tagsError)
    }
  }
}
