/**
 * The messaging inbox (`Messages`): a searchable conversation list, the
 * thread with the selected conversation's user, and sending a message.
 * Times are milliseconds since the epoch.
 */
module Messages {
  import opened Wrappers
  import opened Seqs
  import opened Text

  datatype Message = Message(
    id: string,
    senderId: string,
    receiverId: string,
    text: string,
    timestamp: int,
    read: bool)

  datatype Conversation = Conversation(
    id: string,
    userId: string,
    userName: string,
    userAvatar: string,
    lastMessage: string,
    lastMessageTime: int,
    unreadCount: int)

  /** The id the signed-in user's messages carry. */
  const CurrentUser := "current-user"

  /** Milliseconds in a day, `1000 * 60 * 60 * 24`. */
  const DayMs := 86400000

  /** `filteredConversations`: the conversations whose user name contains the search term, ignoring case. */
  function FilteredConversations(conversations: seq<Conversation>, term: string): (r: seq<Conversation>)
    ensures IsSubsequence(r, conversations)
    ensures forall c :: c in r <==> c in conversations && Contains(Lower(c.userName), Lower(term))
    ensures forall c :: multiset(r)[c] == if Contains(Lower(c.userName), Lower(term)) then multiset(conversations)[c] else 0
  {
    Filter((c: Conversation) => Contains(Lower(c.userName), Lower(term)), conversations)
  }

  /** An empty search box lists every conversation. */
  lemma EmptySearchListsAll(conversations: seq<Conversation>)
    ensures FilteredConversations(conversations, "") == conversations
  {
    assert Lower("") == "";
    forall c | c in conversations ensures Contains(Lower(c.userName), "") {
      ContainsEmpty(Lower(c.userName));
    }
    FilterKeepsAll((c: Conversation) => Contains(Lower(c.userName), Lower("")), conversations);
  }

  /** The position `find(conv => conv.id === id)` stops at. */
  function FindIndex(conversations: seq<Conversation>, id: string): (r: Option<nat>)
    ensures r.None? <==> forall k :: 0 <= k < |conversations| ==> conversations[k].id != id
    ensures r.Some? ==>
      && r.value < |conversations| && conversations[r.value].id == id
      && forall k :: 0 <= k < r.value ==> conversations[k].id != id
  {
    if conversations == [] then None
    else if conversations[0].id == id then Some(0)
    else match FindIndex(conversations[1..], id)
      case None => None
      case Some(k) => Some(k + 1)
  }

  /** Position `k` holds the first conversation with the id. */
  predicate FirstWithId(conversations: seq<Conversation>, id: string, k: int)
  {
    0 <= k < |conversations| && conversations[k].id == id
    && forall j :: 0 <= j < k ==> conversations[j].id != id
  }

  /** `conversations.find(conv => conv.id === id)`. */
  function FindConversation(conversations: seq<Conversation>, id: string): (r: Option<Conversation>)
    ensures r.None? <==> forall k :: 0 <= k < |conversations| ==> conversations[k].id != id
    ensures r.Some? ==> exists k :: 0 <= k < |conversations| && conversations[k] == r.value && FirstWithId(conversations, id, k)
  {
    match FindIndex(conversations, id)
    case None => None
    case Some(k) => Some(conversations[k])
  }

  /** The user the open thread is with (`find(...)?.userId`); `None` when nothing is found. */
  function Partner(conversations: seq<Conversation>, selected: Option<string>): Option<string>
  {
    if selected.None? then None
    else match FindConversation(conversations, selected.value)
      case None => None
      case Some(c) => Some(c.userId)
  }

  /** A message between the current user and `partner`, in either direction. */
  predicate InThread(m: Message, partner: Option<string>)
  {
    partner.Some? &&
    ((m.senderId == CurrentUser && m.receiverId == partner.value)
     || (m.receiverId == CurrentUser && m.senderId == partner.value))
  }

  /** The messages the thread view shows, in the order they were stored. */
  function ThreadMessages(messages: seq<Message>, partner: Option<string>): (r: seq<Message>)
    ensures IsSubsequence(r, messages)
    ensures forall m :: m in r <==> m in messages && InThread(m, partner)
    ensures forall m :: multiset(r)[m] == if InThread(m, partner) then multiset(messages)[m] else 0
  {
    Filter((m: Message) => InThread(m, partner), messages)
  }

  /** The conversation entry after a message was sent in it. */
  function MarkSent(c: Conversation, text: string, now: int): Conversation
  {
    c.(lastMessage := text, lastMessageTime := now, unreadCount := 0)
  }

  /** `conversations.map(conv => conv.id === id ? {...} : conv)`. */
  function UpdateConversations(conversations: seq<Conversation>, id: string, text: string, now: int)
    : (r: seq<Conversation>)
    ensures |r| == |conversations|
    ensures forall k :: 0 <= k < |r| ==>
      r[k] == if conversations[k].id == id then MarkSent(conversations[k], text, now) else conversations[k]
  {
    if conversations == [] then []
    else
      var c := conversations[0];
      [if c.id == id then MarkSent(c, text, now) else c]
        + UpdateConversations(conversations[1..], id, text, now)
  }

  /** Updating the list keeps every conversation's id and user, so the open thread stays with the same user. */
  lemma UpdateKeepsPartner(conversations: seq<Conversation>, id: string, text: string, now: int, selected: Option<string>)
    ensures Partner(UpdateConversations(conversations, id, text, now), selected) == Partner(conversations, selected)
  {
    var updated := UpdateConversations(conversations, id, text, now);
    if selected.Some? {
      var s := selected.value;
      assert forall k :: 0 <= k < |updated| ==> updated[k].id == conversations[k].id && updated[k].userId == conversations[k].userId;
      match FindIndex(conversations, s)
      case None =>
        assert FindIndex(updated, s).None?;
      case Some(k) =>
        var k' := FindIndex(updated, s);
        assert k'.Some? && k'.value == k;
    }
  }

  /** The send button is disabled (the input is empty once trimmed): exactly when the input is nothing but white space. */
  function SendDisabled(newMessage: string): (r: bool)
    ensures r <==> forall i :: 0 <= i < |newMessage| ==> IsWhitespace(newMessage[i])
  {
    TrimEmptyIffBlank(newMessage);
    Trim(newMessage) == []
  }

  /** The guards of `handleSendMessage`: text after trimming, a truthy selection, and a conversation with that id. */
  function CanSend(conversations: seq<Conversation>, selected: Option<string>, newMessage: string): (r: bool)
    ensures r ==> exists i :: 0 <= i < |newMessage| && !IsWhitespace(newMessage[i])
    ensures r ==> Partner(conversations, selected).Some?
  {
    !SendDisabled(newMessage) && selected.Some? && selected.value != ""
    && FindConversation(conversations, selected.value).Some?
  }

  /** Message ids are "m1", "m2", ... by position. */
  ghost predicate PositionalIds(messages: seq<Message>)
  {
    forall k :: 0 <= k < |messages| ==> messages[k].id == "m" + DecimalString(k + 1)
  }

  /** Appending the message numbered after the last keeps the ids positional. */
  lemma AppendKeepsPositionalIds(messages: seq<Message>, m: Message)
    requires PositionalIds(messages) && m.id == "m" + DecimalString(|messages| + 1)
    ensures PositionalIds(messages + [m])
  {
  }

  /** Positional ids never collide. */
  lemma PositionalIdsAreUnique(messages: seq<Message>, i: int, j: int)
    requires PositionalIds(messages)
    requires 0 <= i < |messages| && 0 <= j < |messages| && i != j
    ensures messages[i].id != messages[j].id
  {
    var di, dj := DecimalString(i + 1), DecimalString(j + 1);
    assert ("m" + di)[1..] == di && ("m" + dj)[1..] == dj;
  }

  /** A sent message joins the end of the thread it was sent in. */
  lemma SentMessageEndsThread(messages: seq<Message>, m: Message, partner: Option<string>)
    requires partner.Some? && m.senderId == CurrentUser && m.receiverId == partner.value
    ensures ThreadMessages(messages + [m], partner) == ThreadMessages(messages, partner) + [m]
  {
    FilterConcat((x: Message) => InThread(x, partner), messages, [m]);
    assert [m][1..] == [];
  }

  datatype TimeLabel = ClockTime | Yesterday | ShortWeekday | MonthAndDay

  /** `Math.floor((now - t) / DayMs)`; Dafny's division rounds down for a positive divisor. */
  function DaysAgo(now: int, t: int): int
  {
    (now - t) / DayMs
  }

  /** Which form `formatTime` prints a time in. */
  function FormatTime(now: int, t: int): (r: TimeLabel)
    ensures r == ClockTime <==> 0 <= now - t < DayMs
    ensures r == Yesterday <==> DayMs <= now - t < 2 * DayMs
    ensures r == ShortWeekday <==> now - t < 0 || 2 * DayMs <= now - t < 7 * DayMs
    ensures r == MonthAndDay <==> 7 * DayMs <= now - t
  {
    var d := DaysAgo(now, t);
    if d == 0 then ClockTime
    else if d == 1 then Yesterday
    else if d < 7 then ShortWeekday
    else MonthAndDay
  }

  /** The inbox page's state. */
  class Inbox {
    var conversations: seq<Conversation>
    var selectedConversation: Option<string>
    var searchTerm: string
    var newMessage: string
    var messages: seq<Message>

    constructor (conversations: seq<Conversation>, messages: seq<Message>)
      ensures this.conversations == conversations && this.messages == messages
      ensures selectedConversation == None && searchTerm == "" && newMessage == ""
    {
      this.conversations := conversations;
      this.messages := messages;
      selectedConversation := None;
      searchTerm := "";
      newMessage := "";
    }

    /** Clicking a conversation in the list. */
    method SelectConversation(id: string)
      modifies this`selectedConversation
      ensures selectedConversation == Some(id)
    {
      selectedConversation := Some(id);
    }

    /** The back arrow above the thread. */
    method CloseConversation()
      modifies this`selectedConversation
      ensures selectedConversation == None
    {
      selectedConversation := None;
    }

    /** Typing in the message box. */
    method SetNewMessage(text: string)
      modifies this`newMessage
      ensures newMessage == text
    {
      newMessage := text;
    }

    /** Typing in the search box. */
    method SetSearchTerm(term: string)
      modifies this`searchTerm
      ensures searchTerm == term
    {
      searchTerm := term;
    }

    /** `handleSendMessage`, with `now` standing for `new Date()`. */
    method SendMessage(now: int)
      modifies this`messages, this`conversations, this`newMessage
      ensures !CanSend(old(conversations), selectedConversation, old(newMessage)) ==>
        messages == old(messages) && conversations == old(conversations) && newMessage == old(newMessage)
      ensures CanSend(old(conversations), selectedConversation, old(newMessage)) ==>
        && messages == old(messages) + [Message("m" + DecimalString(|old(messages)| + 1), CurrentUser,
             FindConversation(old(conversations), selectedConversation.value).value.userId,
             old(newMessage), now, false)]
        && conversations == UpdateConversations(old(conversations), selectedConversation.value, old(newMessage), now)
        && newMessage == ""
      ensures PositionalIds(old(messages)) ==> PositionalIds(messages)
    {
      if Trim(newMessage) == [] || selectedConversation.None? || selectedConversation.value == "" {
        return;
      }
      var selectedUser := FindConversation(conversations, selectedConversation.value);
      if selectedUser.None? {
        return;
      }
      var sent := Message("m" + DecimalString(|messages| + 1), CurrentUser, selectedUser.value.userId,
        newMessage, now, false);
      if PositionalIds(messages) {
        AppendKeepsPositionalIds(messages, sent);
      }
      messages := messages + [sent];
      conversations := UpdateConversations(conversations, selectedConversation.value, newMessage, now);
      newMessage := "";
    }
  }
}
