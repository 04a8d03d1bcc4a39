/**
 * The prototype dashboard: a fixed table of demonstration chats and
 * messages, the send handler that appends to the open conversation, the
 * chat selection and the date label of a list entry.
 */
module Dashboard {
  import opened Records
  import opened Text

  /** A chat entry of the demonstration table. */
  datatype DemoChat = DemoChat(id: Id, name: string, lastMessage: string, phone: string, date: string,
                               tags: seq<string>, unread: nat, avatar: Option<string>)

  /** A message as the dashboard keeps it; `read` and `sentBy` are absent on some entries. */
  datatype DemoMessage = DemoMessage(id: Id, content: string, sender: string, timestamp: string, isMe: bool,
                                     phone: string, read: Option<bool>, sentBy: Option<string>)

  /** The row the send handler inserts into `messages`. */
  datatype DemoInsert = DemoInsert(chat_id: Id, sender_id: Id, content: string)

  const OwnName := "Periskope"
  const OwnPhone := "+91 99178 44008"
  const CurrentUserId := "current-user-id"
  const PeerPhone := "+91 63846 47925"

  const DummyChats: seq<DemoChat> := [
    DemoChat("1", "Test Skope Final 5", "Support2: This doesn't go on Tuesday...", "+91 99178 44008 +1", "Yesterday", ["Demo"], 4, None),
    DemoChat("2", "Periskope Team Chat", "Periskope: Test message", "+91 99178 44008 +3", "28-Feb-25", ["Demo", "Internal"], 0, Some("/periskope-logo.png")),
    DemoChat("3", "+91 99999 99999", "Hi there, I'm Swapnika, Co-Founder of ...", "+91 92898 69899 +1", "25-Feb-25", ["Demo", "Signup"], 0, None),
    DemoChat("4", "Test Demo17", "Rohosen: 123", "+91 99178 44008 +1", "25-Feb-25", ["Content", "Demo"], 0, Some("/user1.png")),
    DemoChat("5", "Test El Centro", "Roshnag: Hello, Ahmadport!", "+91 99178 44008", "04-Feb-25", ["Demo"], 0, None),
    DemoChat("6", "Testing group", "Testing 12345", "+91 92898 69899", "27-Jan-25", ["Demo"], 0, None),
    DemoChat("7", "Yasin 3", "First Bulk Message", "+91 99178 44008 +3", "25-Nov-24", ["Demo", "Dont Send"], 0, Some("/user2.png")),
    DemoChat("8", "Test Skope Final 9473", "Heyy", "+91 99178 44008 +1", "01-Jan-25", ["Demo"], 0, None),
    DemoChat("9", "Skope Demo", "test 123", "+91 92898 69899", "20-Dec-24", ["Demo"], 0, Some("/skope-logo.png")),
    DemoChat("10", "Test Demo15", "test 123", "+91 92898 69899", "20-Dec-24", ["Demo"], 0, Some("/user1.png"))
  ]

  const DummyMessages: map<Id, seq<DemoMessage>> := map[
    "5" := [
      DemoMessage("1", "CVFER", "Roshnag Airtel", "11:51", false, PeerPhone, None, None),
      DemoMessage("2", "CDERT", "Roshnag Airtel", "11:54", false, PeerPhone, None, None),
      DemoMessage("3", "Hello, South Euna!", "Roshnag Airtel", "08:01", false, PeerPhone, None, None),
      DemoMessage("4", "Hello, Livonia!", "Roshnag Airtel", "08:01", false, PeerPhone, None, None),
      DemoMessage("5", "test el centro", OwnName, "08:43", true, OwnPhone, Some(true), Some("bharatgnatarajan.dev")),
      DemoMessage("6", "CDERT", "Roshnag Airtel", "08:49", false, PeerPhone, None, None),
      DemoMessage("7", "testing", OwnName, "08:49", true, OwnPhone, Some(true), Some("bharatgnatarajan.dev")),
      DemoMessage("8", "hello", OwnName, "12:07", true, OwnPhone, Some(true), None)
    ]
  ]

  /** `new-${Date.now()}`: the id of a message sent at `nowMs`. */
  function NewMessageId(nowMs: nat): (r: Id)
    ensures |r| > 4 && r[..4] == "new-"
  {
    "new-" + NatToString(nowMs)
  }

  /** Messages sent at different times get different ids. */
  lemma NewIdsDistinct(t1: nat, t2: nat)
    ensures NewMessageId(t1) == NewMessageId(t2) <==> t1 == t2
  {
    if NewMessageId(t1) == NewMessageId(t2) {
      assert NewMessageId(t1)[4..] == NatToString(t1);
      assert NewMessageId(t2)[4..] == NatToString(t2);
      NatToStringRoundTrip(t1);
      NatToStringRoundTrip(t2);
    }
  }

  /** A sent message's id never clashes with an id of the demonstration table. */
  lemma NewIdNotInTable(nowMs: nat, id: Id, ms: seq<DemoMessage>)
    requires id in DummyMessages && ms == DummyMessages[id]
    ensures forall m :: m in ms ==> m.id != NewMessageId(nowMs)
  {
    forall m | m in ms
      ensures m.id != NewMessageId(nowMs)
    {
      assert |m.id| == 1;
    }
  }

  /** The message appended by a send: own, unread, with the content as typed. */
  function OwnMessage(nowMs: nat, clock: string, content: string): (r: DemoMessage)
    ensures r.id == NewMessageId(nowMs) && r.content == content
    ensures r.isMe && r.read == Some(false) && r.sender == OwnName && r.phone == OwnPhone
  {
    DemoMessage(NewMessageId(nowMs), content, OwnName, clock, true, OwnPhone, Some(false), None)
  }

  /** The label of a list entry's date: the literal "Yesterday", or the parsed date (None when invalid). */
  datatype DateLabel = YesterdayText | LocaleDate(parsed: Option<Millis>)

  function FormatTime(dateString: string, parsed: Option<Millis>): (r: DateLabel)
    ensures r == YesterdayText <==> dateString == "Yesterday"
    ensures r.LocaleDate? ==> r.parsed == parsed
  {
    if dateString == "Yesterday" then YesterdayText else LocaleDate(parsed)
  }

  class Dashboard {
    var activeChat: Option<DemoChat>
    var message: string
    var chats: seq<DemoChat>
    var messages: seq<DemoMessage>

    constructor()
      ensures activeChat.None? && message == "" && chats == [] && messages == []
    {
      activeChat, message, chats, messages := None, "", [], [];
    }

    /** The mount effect: the demonstration table, with chat "5" open. */
    method Mount()
      modifies this`chats, this`activeChat, this`messages
      ensures chats == DummyChats
      ensures activeChat == Some(DummyChats[4]) && activeChat.value.id == "5"
      ensures messages == DummyMessages["5"] && |messages| == 8
    {
      chats := DummyChats;
      activeChat := Some(DummyChats[4]);
      messages := DummyMessages["5"];
    }

    method SetMessage(text: string)
      modifies this`message
      ensures message == text
    {
      message := text;
    }

    /**
     * `handleSendMessage` at time `nowMs`, `clock` being the formatted time
     * of day. A blank input changes nothing. Otherwise the typed text is
     * appended as an own message, even with no chat open, the input is
     * cleared, and `insert` is the backend row, sent only with a chat open.
     */
    method HandleSendMessage(nowMs: nat, clock: string) returns (insert: Option<DemoInsert>)
      modifies this`messages, this`message
      ensures IsBlank(old(message)) ==> unchanged(this) && insert.None?
      ensures !IsBlank(old(message)) ==>
        && messages == old(messages) + [OwnMessage(nowMs, clock, old(message))]
        && message == ""
        && insert == if activeChat.Some? then Some(DemoInsert(activeChat.value.id, CurrentUserId, old(message))) else None
    {
      if IsBlank(message) {
        return None;
      }
      var typed := message;
      messages := messages + [OwnMessage(nowMs, clock, typed)];
      message := "";
      if activeChat.None? {
        return None;
      }
      insert := Some(DemoInsert(activeChat.value.id, CurrentUserId, typed));
    }

    /** `handleChatSelect`: opens the chat and shows its table entry, or nothing. */
    method HandleChatSelect(chat: DemoChat)
      modifies this`activeChat, this`messages
      ensures activeChat == Some(chat)
      ensures messages == if chat.id in DummyMessages then DummyMessages[chat.id] else []
    {
      activeChat := Some(chat);
      messages := if chat.id in DummyMessages then DummyMessages[chat.id] else [];
    }
  }
}
