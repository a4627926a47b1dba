/**
 * The per-conversation message engine of the chat window: history loading,
 * sender names, the live subscription's filter and append, sending,
 * the voice toggle, and group membership management.
 */
module ChatWindow {
  import opened Wrappers
  import opened Trimming
  import opened StableSort
  import opened Records

  /** The display name of a sender without a usable profile. */
  const Unknown := "Unknown"

  /** The content a voice message is sent with; no audio is captured. */
  const VoicePlaceholder := "\U{1F3A4} Voice message"

  /** A row of a history query: the message joined with `profiles(username)`, null when missing. */
  datatype HistoryRow = HistoryRow(message: Message, profileUsername: Option<string>)

  /** The history queries: by sender and recipient (each ordered by `created_at`), or by group. */
  datatype HistoryQuery = Between(senderId: string, recipientId: string) | InGroup(groupId: string)

  /** The realtime filter of a chat's channel: one OR of two ANDs, or group equality. */
  datatype Filter = EitherDirection(me: string, peer: string) | GroupIs(groupId: string)

  /** A realtime channel on inserts into `messages`. */
  datatype Channel = Channel(name: string, filter: Filter)

  // ---------------------------------------------------------------------------
  // Sender names

  /** `profile?.username || 'Unknown'`: the profile's username unless it is missing or empty. */
  function DisplayName(profileUsername: Option<string>): (name: string)
    ensures name != ""
    ensures profileUsername.Some? && profileUsername.value != "" ==> name == profileUsername.value
    ensures name != Unknown ==> profileUsername == Some(name)
  {
    if profileUsername.Some? && profileUsername.value != "" then profileUsername.value else Unknown
  }

  /** `{ ...msg, sender_username: … }`: sets the display name and nothing else. */
  function WithSenderName(m: Message, profileUsername: Option<string>): (r: Message)
    ensures r.senderUsername == Some(DisplayName(profileUsername))
    ensures r.(senderUsername := m.senderUsername) == m
  {
    m.(senderUsername := Some(DisplayName(profileUsername)))
  }

  function Named(row: HistoryRow): Message {
    WithSenderName(row.message, row.profileUsername)
  }

  /** Every message carries a non-empty sender display name. */
  predicate AllNamed(ms: seq<Message>) {
    forall i :: 0 <= i < |ms| ==> ms[i].senderUsername.Some? && ms[i].senderUsername.value != ""
  }

  /** Names every row, one message per row at the same position: a missing profile drops nothing. */
  function NameAll(rows: seq<HistoryRow>): (ms: seq<Message>)
    ensures |ms| == |rows|
    ensures forall i :: 0 <= i < |rows| ==> ms[i] == Named(rows[i])
    ensures AllNamed(ms)
  {
    if rows == [] then [] else [Named(rows[0])] + NameAll(rows[1..])
  }

  lemma {:induction false} NameAllAppend(a: seq<HistoryRow>, b: seq<HistoryRow>)
    ensures NameAll(a + b) == NameAll(a) + NameAll(b)
  {
    var l, r := NameAll(a + b), NameAll(a) + NameAll(b);
    assert |l| == |r|;
    forall i | 0 <= i < |l| ensures l[i] == r[i] {
      if i < |a| {
        assert (a + b)[i] == a[i];
      } else {
        assert (a + b)[i] == b[i - |a|];
      }
    }
  }

  // ---------------------------------------------------------------------------
  // History

  function RowTime(row: HistoryRow): int {
    row.message.createdAt
  }

  function CreatedAt(m: Message): int {
    m.createdAt
  }

  /**
   * The direct-message history: the sent rows, then the received rows, a list
   * whose query failed counting as empty, stably sorted by `created_at`, then named.
   */
  function DirectHistory(sent: Option<seq<HistoryRow>>, received: Option<seq<HistoryRow>>): seq<Message> {
    NameAll(SortBy(sent.GetOr([]) + received.GetOr([]), RowTime))
  }

  /** The group history: the server's rows, named, or the current messages when the query failed. */
  function GroupHistory(current: seq<Message>, data: Option<seq<HistoryRow>>): seq<Message> {
    if data.Some? then NameAll(data.value) else current
  }

  /** What `loadMessages` leaves in `messages` for a selected chat, given the backend's answers. */
  function LoadedMessages(
    userId: string, chat: Selection, history: HistoryQuery -> Option<seq<HistoryRow>>, current: seq<Message>
  ): seq<Message>
  {
    match chat.kind
    case DmChat => DirectHistory(history(Between(userId, chat.id)), history(Between(chat.id, userId)))
    case GroupChat => GroupHistory(current, history(InGroup(chat.id)))
  }

  lemma {:induction false} NameAllInsert(x: HistoryRow, s: seq<HistoryRow>)
    ensures NameAll(InsertBy(x, s, RowTime)) == InsertBy(Named(x), NameAll(s), CreatedAt)
  {
    if s == [] || RowTime(x) <= RowTime(s[0]) {
      assert ([x] + s)[1..] == s;
    } else {
      var rest := InsertBy(x, s[1..], RowTime);
      var ns := NameAll(s);
      NameAllInsert(x, s[1..]);
      assert ns[0] == Named(s[0]) && ns[1..] == NameAll(s[1..]);
      assert ([s[0]] + rest)[1..] == rest;
      assert NameAll([s[0]] + rest) == [ns[0]] + NameAll(rest);
      assert InsertBy(Named(x), ns, CreatedAt) == [ns[0]] + InsertBy(Named(x), ns[1..], CreatedAt);
    }
  }

  /** Naming commutes with sorting, since it keeps every timestamp. */
  lemma {:induction false} NameAllSort(s: seq<HistoryRow>)
    ensures NameAll(SortBy(s, RowTime)) == SortBy(NameAll(s), CreatedAt)
  {
    if s != [] {
      var r := SortBy(s[1..], RowTime);
      var ns := NameAll(s);
      assert ns[0] == Named(s[0]) && ns[1..] == NameAll(s[1..]);
      calc {
        NameAll(SortBy(s, RowTime));
        NameAll(InsertBy(s[0], r, RowTime));
        { NameAllInsert(s[0], r); }
        InsertBy(Named(s[0]), NameAll(r), CreatedAt);
        { NameAllSort(s[1..]); }
        InsertBy(ns[0], SortBy(ns[1..], CreatedAt), CreatedAt);
        SortBy(ns, CreatedAt);
      }
    }
  }

  /**
   * The direct-message history is a permutation of the named sent and received
   * messages, ordered by `created_at`; among messages with equal timestamps the
   * sent ones come first and each list keeps its own order. Every message is named.
   */
  lemma DirectHistoryIsStableMerge(sent: Option<seq<HistoryRow>>, received: Option<seq<HistoryRow>>)
    ensures var h := DirectHistory(sent, received);
            var s, r := NameAll(sent.GetOr([])), NameAll(received.GetOr([]));
            && multiset(h) == multiset(s + r)
            && SortedBy(h, CreatedAt)
            && (forall t :: AtKey(h, CreatedAt, t) == AtKey(s, CreatedAt, t) + AtKey(r, CreatedAt, t))
            && AllNamed(h)
  {
    var all := sent.GetOr([]) + received.GetOr([]);
    var s, r := NameAll(sent.GetOr([])), NameAll(received.GetOr([]));
    NameAllSort(all);
    NameAllAppend(sent.GetOr([]), received.GetOr([]));
    SortByIsStableSort(s + r, CreatedAt);
    forall t ensures AtKey(s + r, CreatedAt, t) == AtKey(s, CreatedAt, t) + AtKey(r, CreatedAt, t) {
      AtKeyAppend(s, r, CreatedAt, t);
    }
  }

  /** When one half of a direct-message load fails, the other half alone is the history. */
  lemma DirectHistoryOneHalfFailed(rows: seq<HistoryRow>)
    requires SortedBy(rows, RowTime)
    ensures DirectHistory(None, Some(rows)) == NameAll(rows)
    ensures DirectHistory(Some(rows), None) == NameAll(rows)
  {
    assert [] + rows == rows + [] == rows;
    SortBySortedInput(rows, RowTime);
  }

  /**
   * Two messages with different timestamps come out oldest first whichever of
   * the two queries returned which, so both parties of a conversation see it
   * in the same order.
   */
  lemma DistinctTimesOrder(a: HistoryRow, b: HistoryRow)
    requires RowTime(a) < RowTime(b)
    ensures DirectHistory(Some([a]), Some([b])) == NameAll([a, b])
    ensures DirectHistory(Some([b]), Some([a])) == NameAll([a, b])
  {
    SortPair(a, b, RowTime);
  }

  /**
   * User 1 sends "hi" to user 2 at time 100 and user 2 answers "hello" at 101:
   * both users' clients load the conversation as "hi" then "hello", each named
   * after its sender, a missing profile showing as Unknown.
   */
  lemma TwoPartyScenario()
    ensures var hi := Message("m1", "hi", Text, "1", None, 100, None, Some("2"));
            var hello := Message("m2", "hello", Text, "2", None, 101, None, Some("1"));
            var rowHi, rowHello := HistoryRow(hi, Some("ann")), HistoryRow(hello, None);
            var expected := [hi.(senderUsername := Some("ann")), hello.(senderUsername := Some(Unknown))];
            && DirectHistory(Some([rowHi]), Some([rowHello])) == expected
            && DirectHistory(Some([rowHello]), Some([rowHi])) == expected
  {
    var hi := Message("m1", "hi", Text, "1", None, 100, None, Some("2"));
    var hello := Message("m2", "hello", Text, "2", None, 101, None, Some("1"));
    var rowHi, rowHello := HistoryRow(hi, Some("ann")), HistoryRow(hello, None);
    DistinctTimesOrder(rowHi, rowHello);
    var ns := NameAll([rowHi, rowHello]);
    assert ns[0] == hi.(senderUsername := Some("ann"));
    assert ns[1] == hello.(senderUsername := Some(Unknown));
  }

  /** Loading never introduces a message without a sender name. */
  lemma LoadedMessagesNamed(
    userId: string, chat: Selection, history: HistoryQuery -> Option<seq<HistoryRow>>, current: seq<Message>)
    requires AllNamed(current)
    ensures AllNamed(LoadedMessages(userId, chat, history, current))
    ensures chat.kind == GroupChat && history(InGroup(chat.id)).None? ==>
              LoadedMessages(userId, chat, history, current) == current
  {
  }

  // ---------------------------------------------------------------------------
  // Live updates

  /** The filter string of the chat's channel. */
  function LiveFilter(userId: string, chat: Selection): Filter {
    match chat.kind
    case DmChat => EitherDirection(userId, chat.id)
    case GroupChat => GroupIs(chat.id)
  }

  /**
   * The intended meaning of a filter expression on an inserted row: the
   * OR-of-ANDs over sender and recipient, or equality of the group id.
   */
  predicate Accepts(f: Filter, m: Message) {
    match f
    case EitherDirection(me, peer) =>
      || (m.senderId == me && m.recipientId == Some(peer))
      || (m.senderId == peer && m.recipientId == Some(me))
    case GroupIs(g) => m.groupId == Some(g)
  }

  /** `m` matches the filter of the chat's channel. */
  predicate Relevant(userId: string, chat: Selection, m: Message) {
    Accepts(LiveFilter(userId, chat), m)
  }

  function TypeTag(kind: ChatType): string {
    match kind
    case DmChat => "dm"
    case GroupChat => "group"
  }

  /** `messages:${type}:${id}`. */
  function ChannelName(chat: Selection): string {
    "messages:" + TypeTag(chat.kind) + ":" + chat.id
  }

  /** The one channel `subscribeToMessages` opens for a chat. */
  function Subscription(userId: string, chat: Selection): (c: Channel)
    ensures c.name == ChannelName(chat)
    ensures c.filter.EitherDirection? <==> chat.kind == DmChat
    ensures forall m :: Accepts(c.filter, m) <==>
              || (chat.kind == DmChat && m.senderId == userId && m.recipientId == Some(chat.id))
              || (chat.kind == DmChat && m.senderId == chat.id && m.recipientId == Some(userId))
              || (chat.kind == GroupChat && m.groupId == Some(chat.id))
  {
    Channel(ChannelName(chat), LiveFilter(userId, chat))
  }

  /**
   * A direct chat's channel filter matches exactly the messages from me to the
   * peer and from the peer to me; a group chat's exactly those of the group.
   */
  lemma LiveFilterExact(userId: string, chat: Selection, m: Message)
    ensures chat.kind == DmChat ==>
              (Relevant(userId, chat, m) <==>
                 || (m.senderId == userId && m.recipientId == Some(chat.id))
                 || (m.senderId == chat.id && m.recipientId == Some(userId)))
    ensures chat.kind == GroupChat ==> (Relevant(userId, chat, m) <==> m.groupId == Some(chat.id))
  {
  }

  /** The filters of both parties' direct chats with each other match the same messages. */
  lemma DirectFilterSymmetric(me: string, peer: string, myTitle: string, peerTitle: string, m: Message)
    ensures Relevant(me, Selection(DmChat, peer, myTitle), m) <==> Relevant(peer, Selection(DmChat, me, peerTitle), m)
  {
  }

  /**
   * No leakage: a direct message matches only the filter of a direct chat
   * between its sender and its recipient, and never a group chat's filter.
   */
  lemma DirectMessageStaysPrivate(userId: string, chat: Selection, m: Message)
    requires m.recipientId.Some? && m.groupId.None?
    requires Relevant(userId, chat, m)
    ensures chat.kind == DmChat
    ensures || (userId == m.senderId && chat.id == m.recipientId.value)
            || (chat.id == m.senderId && userId == m.recipientId.value)
  {
  }

  // ---------------------------------------------------------------------------
  // Sending

  /**
   * `content || newMessage.trim()`: a non-empty explicit content is sent as
   * given; otherwise the draft without its blank margins.
   */
  function EffectiveContent(content: Option<string>, draft: string): (c: string)
    ensures content.Some? && content.value != "" ==> c == content.value
    ensures !(content.Some? && content.value != "") ==> c == Trim(draft)
    ensures c == "" <==> (content.None? || content.value == "") && Blank(draft)
  {
    if content.Some? && content.value != "" then content.value else Trim(draft)
  }

  /** The message fields `sendMessage` would insert, or None when it returns before inserting. */
  function SendPayload(
    userId: string, chat: Option<Selection>, kind: MessageType, content: Option<string>, draft: string
  ): Option<Payload>
  {
    if chat.None? then None
    else
      var messageContent := EffectiveContent(content, draft);
      if messageContent == "" && kind != Voice then None
      else
        match chat.value.kind
        case DmChat => Some(Payload(userId, messageContent, kind, Some(chat.value.id), None))
        case GroupChat => Some(Payload(userId, messageContent, kind, None, Some(chat.value.id)))
  }

  /**
   * `sendMessage` inserts exactly when a chat is selected and the content is
   * non-empty or the message is a voice message. The payload names the user as
   * sender, carries the effective content and the type, and has exactly one
   * target, the chat's id: the recipient for a direct chat, the group for a group.
   */
  lemma SendPayloadSpec(
    userId: string, chat: Option<Selection>, kind: MessageType, content: Option<string>, draft: string)
    ensures var p := SendPayload(userId, chat, kind, content, draft);
            && (p.Some? <==> chat.Some? && (kind == Voice || EffectiveContent(content, draft) != ""))
            && (p.Some? ==>
                  && p.value.senderId == userId
                  && p.value.messageType == kind
                  && p.value.content == EffectiveContent(content, draft)
                  && (p.value.recipientId.Some? <==> chat.value.kind == DmChat)
                  && (p.value.groupId.Some? <==> chat.value.kind == GroupChat)
                  && p.value.recipientId.Some? != p.value.groupId.Some?
                  && (p.value.recipientId.Some? ==> p.value.recipientId.value == chat.value.id)
                  && (p.value.groupId.Some? ==> p.value.groupId.value == chat.value.id))
  {
  }

  /** A blank draft sent without explicit content inserts nothing, unless it is a voice message. */
  lemma BlankDraftSendsNothing(userId: string, chat: Option<Selection>, kind: MessageType, draft: string)
    requires Blank(draft) && kind != Voice
    ensures SendPayload(userId, chat, kind, None, draft) == None
    ensures SendPayload(userId, chat, kind, Some(""), draft) == None
  {
  }

  /** The row the backend stores for an inserted payload. */
  function Stored(p: Payload, id: string, createdAt: int): Message
  {
    Message(id, p.content, p.messageType, p.senderId, None, createdAt, p.groupId, p.recipientId)
  }

  /**
   * Sending inserts no local copy; the sender sees a message only through the
   * live path. The stored row of a sent message matches the filter of the
   * sender's chat and, for a direct message, also the filter of the
   * recipient's chat with the sender.
   */
  lemma SentMessageMatchesFilter(
    userId: string, chat: Selection, kind: MessageType, content: Option<string>, draft: string,
    id: string, createdAt: int, peerTitle: string)
    requires SendPayload(userId, Some(chat), kind, content, draft).Some?
    ensures var m := Stored(SendPayload(userId, Some(chat), kind, content, draft).value, id, createdAt);
            && Relevant(userId, chat, m)
            && (chat.kind == DmChat ==> Relevant(chat.id, Selection(DmChat, userId, peerTitle), m))
  {
  }

  /** Finishing a recording always sends the placeholder when a chat is open. */
  lemma VoicePlaceholderIsSent(userId: string, chat: Selection, draft: string)
    ensures var p := SendPayload(userId, Some(chat), Voice, Some(VoicePlaceholder), draft);
            p.Some? && p.value.content == VoicePlaceholder && p.value.messageType == Voice
  {
  }

  // ---------------------------------------------------------------------------
  // Membership

  /** `allUsers.filter(u => !members.some(m => m === u.id))`. */
  function EligibleToAdd(roster: seq<Profile>, members: seq<string>): (r: seq<Profile>)
    ensures |r| <= |roster|
    ensures forall k :: 0 <= k < |r| ==> r[k] in roster && r[k].id !in members
    ensures forall k :: 0 <= k < |roster| && roster[k].id !in members ==> roster[k] in r
  {
    if roster == [] then []
    else
      var rest := EligibleToAdd(roster[1..], members);
      assert forall k :: 1 <= k < |roster| ==> roster[k] == roster[1..][k - 1];
      if roster[0].id in members then rest else [roster[0]] + rest
  }

  /**
   * The filter works entry by entry: a single entry is kept exactly when it is
   * not a member, and the filter distributes over concatenation. Together these
   * fix the list: roster order, each kept entry once.
   */
  lemma {:induction false} EligibleToAddAppend(x: seq<Profile>, y: seq<Profile>, members: seq<string>)
    ensures EligibleToAdd(x + y, members) == EligibleToAdd(x, members) + EligibleToAdd(y, members)
    ensures forall p :: EligibleToAdd([p], members) == if p.id in members then [] else [p]
  {
    if x == [] {
      assert x + y == y;
    } else {
      assert (x + y)[1..] == x[1..] + y;
      EligibleToAddAppend(x[1..], y, members);
    }
  }

  /** With no members, every roster entry is eligible, in roster order. */
  lemma {:induction false} EligibleWithoutMembers(roster: seq<Profile>)
    ensures EligibleToAdd(roster, []) == roster
  {
    if roster != [] {
      EligibleWithoutMembers(roster[1..]);
      assert [roster[0]] + roster[1..] == roster;
    }
  }

  /** The add-member list after `loadGroupMembers`, given the member and roster query results. */
  function AvailableAfterLoad(
    isAdmin: bool, members: Option<seq<string>>, roster: Option<seq<Profile>>, current: seq<Profile>
  ): seq<Profile>
  {
    if !isAdmin || roster.None? then current
    else if members.Some? then EligibleToAdd(roster.value, members.value)
    else roster.value
  }

  /**
   * Non-admins never change the list; for an admin with a loaded member list it
   * is exactly the non-members of the roster; if the member query failed it is
   * the whole roster; a failed roster query changes nothing. The roster already
   * excludes the current user, so the list never holds them either.
   */
  lemma AvailableUsersRules(
    userId: string, isAdmin: bool, members: Option<seq<string>>, roster: Option<seq<Profile>>, current: seq<Profile>)
    ensures var a := AvailableAfterLoad(isAdmin, members, roster, current);
            && (!isAdmin || roster.None? ==> a == current)
            && (isAdmin && roster.Some? && members.None? ==> a == roster.value)
            && (isAdmin && roster.Some? && members.Some? ==>
                  && (forall k :: 0 <= k < |a| ==> a[k] in roster.value && a[k].id !in members.value)
                  && (forall k :: 0 <= k < |roster.value| && roster.value[k].id !in members.value ==> roster.value[k] in a))
            && (isAdmin && roster.Some? && members == Some([]) ==> a == roster.value)
            && ((forall k :: 0 <= k < |current| ==> current[k].id != userId) &&
                (roster.Some? ==> forall k :: 0 <= k < |roster.value| ==> roster.value[k].id != userId)
                ==> forall k :: 0 <= k < |a| ==> a[k].id != userId)
  {
    if isAdmin && roster.Some? && members == Some([]) {
      EligibleWithoutMembers(roster.value);
    }
  }

  // ---------------------------------------------------------------------------
  // The component's state

  /**
   * The chat window's state. `userId` and `isAdmin` are properties given by the
   * parent; `selectedChat` is a property too, replaced when the user picks
   * another conversation. Every other field is component state that the
   * handlers below update; every message in `messages` carries a sender name.
   */
  class ChatWindow {
    const userId: string
    const isAdmin: bool
    var selectedChat: Option<Selection>
    var messages: seq<Message>
    var newMessage: string
    var showEmojiPicker: bool
    var isRecording: bool
    var groupMembers: seq<string>
    var showAddMembers: bool
    var availableUsers: seq<Profile>

    ghost predicate Valid()
      reads this`messages
    {
      AllNamed(messages)
    }

    constructor (userId: string, isAdmin: bool)
      ensures Valid()
      ensures this.userId == userId && this.isAdmin == isAdmin && selectedChat == None
      ensures messages == [] && newMessage == "" && !showEmojiPicker && !isRecording
      ensures groupMembers == [] && !showAddMembers && availableUsers == []
    {
      this.userId := userId;
      this.isAdmin := isAdmin;
      selectedChat := None;
      messages := [];
      newMessage := "";
      showEmojiPicker := false;
      isRecording := false;
      groupMembers := [];
      showAddMembers := false;
      availableUsers := [];
    }

    /**
     * A new `selectedChat`: the effect loads the history, opens the chat's
     * channel and, for a group, loads the members. Nothing is cleared first.
     */
    method SelectChat(
      chat: Option<Selection>, history: HistoryQuery -> Option<seq<HistoryRow>>,
      members: Option<seq<string>>, roster: Option<seq<Profile>>
    ) returns (channel: Option<Channel>)
      requires Valid()
      modifies this`selectedChat, this`messages, this`groupMembers, this`availableUsers
      ensures Valid()
      ensures selectedChat == chat
      ensures chat.None? ==>
                && channel.None?
                && messages == old(messages) && groupMembers == old(groupMembers)
                && availableUsers == old(availableUsers)
      ensures chat.Some? ==>
                && channel == Some(Subscription(userId, chat.value))
                && messages == LoadedMessages(userId, chat.value, history, old(messages))
      ensures chat.Some? && chat.value.kind == GroupChat ==>
                && groupMembers == members.GetOr(old(groupMembers))
                && availableUsers == AvailableAfterLoad(isAdmin, members, roster, old(availableUsers))
      ensures chat.Some? && chat.value.kind == DmChat ==>
                groupMembers == old(groupMembers) && availableUsers == old(availableUsers)
    {
      selectedChat := chat;
      channel := None;
      if chat.Some? {
        LoadMessages(history);
        channel := SubscribeToMessages();
        if chat.value.kind == GroupChat {
          LoadGroupMembers(members, roster);
        }
      }
    }

    /** `loadMessages`, with the backend's answer to each history query given by `history`. */
    method LoadMessages(history: HistoryQuery -> Option<seq<HistoryRow>>)
      requires Valid()
      modifies this`messages
      ensures Valid()
      ensures selectedChat.None? ==> messages == old(messages)
      ensures selectedChat.Some? ==> messages == LoadedMessages(userId, selectedChat.value, history, old(messages))
    {
      if selectedChat.None? {
        return;
      }
      var chat := selectedChat.value;
      if chat.kind == DmChat {
        var sentData := history(Between(userId, chat.id));
        var receivedData := history(Between(chat.id, userId));
        messages := NameAll(SortBy(sentData.GetOr([]) + receivedData.GetOr([]), RowTime));
        return;
      }
      var data := history(InGroup(chat.id));
      if data.Some? {
        messages := NameAll(data.value);
      }
    }

    /** `subscribeToMessages`: the channel it opens; its cleanup is returned to nobody. */
    method SubscribeToMessages() returns (channel: Option<Channel>)
      ensures selectedChat.None? ==> channel.None?
      ensures selectedChat.Some? ==> channel == Some(Subscription(userId, selectedChat.value))
    {
      if selectedChat.None? {
        return None;
      }
      var chat := selectedChat.value;
      var filter := if chat.kind == DmChat then EitherDirection(userId, chat.id) else GroupIs(chat.id);
      channel := Some(Channel("messages:" + TypeTag(chat.kind) + ":" + chat.id, filter));
    }

    /**
     * The channel's insert handler: the new message, named from the profile
     * lookup, goes on the end. No re-sort, no de-duplication, and no check of
     * which chat is open.
     */
    method OnInsert(newMsg: Message, profileUsername: Option<string>)
      requires Valid()
      modifies this`messages
      ensures Valid()
      ensures messages == old(messages) + [WithSenderName(newMsg, profileUsername)]
    {
      messages := messages + [WithSenderName(newMsg, profileUsername)];
    }

    /** `loadGroupMembers`, with the member query's and the roster query's results. */
    method LoadGroupMembers(members: Option<seq<string>>, roster: Option<seq<Profile>>)
      modifies this`groupMembers, this`availableUsers
      ensures selectedChat.None? || selectedChat.value.kind != GroupChat ==>
                groupMembers == old(groupMembers) && availableUsers == old(availableUsers)
      ensures selectedChat.Some? && selectedChat.value.kind == GroupChat ==>
                && groupMembers == members.GetOr(old(groupMembers))
                && availableUsers == AvailableAfterLoad(isAdmin, members, roster, old(availableUsers))
    {
      if selectedChat.None? || selectedChat.value.kind != GroupChat {
        return;
      }
      if members.Some? {
        groupMembers := members.value;
        if isAdmin && roster.Some? {
          availableUsers := EligibleToAdd(roster.value, members.value);
        }
      } else if isAdmin && roster.Some? {
        availableUsers := roster.value;
      }
    }

    /** Typing into the message box. */
    method EditDraft(text: string)
      modifies this`newMessage
      ensures newMessage == text
    {
      newMessage := text;
    }

    /**
     * `sendMessage(type, content)`: the insert it attempts, if any; `insertOk`
     * is whether the backend accepted it. Success clears the draft and closes
     * the emoji picker; failure changes nothing; `messages` is never touched.
     */
    method SendMessage(kind: MessageType, content: Option<string>, insertOk: bool) returns (attempt: Option<Payload>)
      modifies this`newMessage, this`showEmojiPicker
      ensures attempt == SendPayload(userId, selectedChat, kind, content, old(newMessage))
      ensures attempt.Some? && insertOk ==> newMessage == "" && !showEmojiPicker
      ensures attempt.None? || !insertOk ==>
                newMessage == old(newMessage) && showEmojiPicker == old(showEmojiPicker)
    {
      ghost var expected := SendPayload(userId, selectedChat, kind, content, newMessage);
      if selectedChat.None? {
        return None;
      }
      var messageContent := EffectiveContent(content, newMessage);
      if messageContent == "" && kind != Voice {
        assert expected == None;
        return None;
      }
      var chat := selectedChat.value;
      var payload := Payload(userId, messageContent, kind, None, None);
      match chat.kind {
        case DmChat => payload := payload.(recipientId := Some(chat.id));
        case GroupChat => payload := payload.(groupId := Some(chat.id));
      }
      attempt := Some(payload);
      if !insertOk {
        return;
      }
      newMessage := "";
      showEmojiPicker := false;
    }

    /**
     * The microphone button, a two-state toggle: the press that starts recording
     * sends nothing, the press that ends it sends the voice placeholder. Without
     * a recorder in the browser nothing happens.
     */
    method HandleVoiceMessage(recorderAvailable: bool, insertOk: bool) returns (attempt: Option<Payload>)
      modifies this`isRecording, this`newMessage, this`showEmojiPicker
      ensures !recorderAvailable ==>
                && attempt.None? && isRecording == old(isRecording)
                && newMessage == old(newMessage) && showEmojiPicker == old(showEmojiPicker)
      ensures recorderAvailable ==> isRecording == !old(isRecording)
      ensures recorderAvailable && !old(isRecording) ==>
                attempt.None? && newMessage == old(newMessage) && showEmojiPicker == old(showEmojiPicker)
      ensures recorderAvailable && old(isRecording) ==>
                && attempt == SendPayload(userId, selectedChat, Voice, Some(VoicePlaceholder), old(newMessage))
                && (attempt.Some? && insertOk ==> newMessage == "" && !showEmojiPicker)
                && (attempt.None? || !insertOk ==>
                      newMessage == old(newMessage) && showEmojiPicker == old(showEmojiPicker))
    {
      attempt := None;
      if !recorderAvailable {
        return;
      }
      if isRecording {
        isRecording := false;
        attempt := SendMessage(Voice, Some(VoicePlaceholder), insertOk);
      } else {
        isRecording := true;
      }
    }

    /**
     * The add-members button, rendered only for an admin in a group chat:
     * it flips whether the candidate list is open.
     */
    method ToggleAddMembers()
      modifies this`showAddMembers
      ensures var shown := selectedChat.Some? && selectedChat.value.kind == GroupChat && isAdmin;
              && (shown ==> showAddMembers == !old(showAddMembers))
              && (!shown ==> showAddMembers == old(showAddMembers))
    {
      if selectedChat.Some? && selectedChat.value.kind == GroupChat && isAdmin {
        showAddMembers := !showAddMembers;
      }
    }

    /** The candidate list, whose entries call `HandleAddUserToGroup`, is on screen. */
    predicate AddListShown()
      reads this`showAddMembers, this`selectedChat
    {
      showAddMembers && isAdmin && selectedChat.Some? && selectedChat.value.kind == GroupChat
    }

    /** `handleLeaveGroup`: the delete it issues, for the open group and the current user only. */
    method HandleLeaveGroup() returns (delete: Option<Write>)
      ensures delete.Some? <==> selectedChat.Some? && selectedChat.value.kind == GroupChat
      ensures delete.Some? ==> delete == Some(DeleteMembership(selectedChat.value.id, userId))
    {
      if selectedChat.None? || selectedChat.value.kind != GroupChat {
        return None;
      }
      delete := Some(DeleteMembership(selectedChat.value.id, userId));
    }

    /**
     * `handleAddUserToGroup(target)`: only an admin in an open group inserts a
     * membership, so a press on the shown candidate list always does; on
     * success the members are reloaded and the list is closed.
     */
    method HandleAddUserToGroup(
      target: string, insertOk: bool, members: Option<seq<string>>, roster: Option<seq<Profile>>
    ) returns (insert: Option<Write>)
      modifies this`groupMembers, this`availableUsers, this`showAddMembers
      ensures old(AddListShown()) ==> insert.Some?
      ensures var allowed := selectedChat.Some? && selectedChat.value.kind == GroupChat && isAdmin;
              && (insert.Some? <==> allowed)
              && (allowed ==> insert == Some(InsertMembership(selectedChat.value.id, target)))
              && (allowed && insertOk ==>
                    && groupMembers == members.GetOr(old(groupMembers))
                    && availableUsers == AvailableAfterLoad(isAdmin, members, roster, old(availableUsers))
                    && !showAddMembers)
              && (!allowed || !insertOk ==>
                    && groupMembers == old(groupMembers) && availableUsers == old(availableUsers)
                    && showAddMembers == old(showAddMembers))
    {
      if selectedChat.None? || selectedChat.value.kind != GroupChat || !isAdmin {
        return None;
      }
      insert := Some(InsertMembership(selectedChat.value.id, target));
      if !insertOk {
        return;
      }
      LoadGroupMembers(members, roster);
      showAddMembers := false;
    }
  }
}
