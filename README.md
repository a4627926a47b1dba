# Chat conversation bookkeeping, modelled in Dafny

A model of the client-side bookkeeping of a two-party and group chat
application built on a hosted database with realtime change feeds. Two React
components hold the logic:

- the **chat window** (`components/ChatWindow.tsx`) loads the history of the
  selected conversation, names every sender, opens a realtime channel for the
  conversation and appends what it delivers, sends messages, toggles voice
  recording, and manages group membership;
- the **sidebar** (`components/Sidebar.tsx`) lists the other users and the
  user's groups, creates groups, marks the user online and offline, and turns
  a click on an entry into the selected conversation.

The backend is not modelled. Every query result is a parameter (`Option<…>`,
with `None` for a query whose `data` is null). Every write outcome the
code acts on is a parameter too (`insertOk`, or the inserted row as an
`Option`); the outcomes the code ignores (the presence updates, the creator's
membership insert) and the leave-group delete, whose success only triggers a
page reload, have none. Every write a
handler issues is returned, so contracts can say exactly which rows a handler
asks to insert, delete or update: a message insert as the `Payload` it
carries, every other write as a `Write` value. The history queries
are a function `HistoryQuery -> Option<seq<HistoryRow>>`, so the contracts of
`LoadMessages` name the exact queries the handler issues. `createdAt` is the
integer number of milliseconds that `new Date(created_at).getTime()` gives,
the value the direct-history sort compares. The stable tie-break (sent
before received) therefore applies to messages in the same millisecond,
while each server query orders by the full-precision column.

Files:

- `wrappers.dfy`: `Option`.
- `trimming.dfy`: ECMAScript's `String.prototype.trim` and "blank text".
- `stable_sort.dfy`: `Array.prototype.sort` with a numeric key comparator.
  The language requires that sort to be stable, so it is a stable insertion
  sort. It is proved to be a permutation, ordered, and order-preserving among
  equal keys.
- `records.dfy`: the rows (`Message`, `Profile`, `OnlineUser`, `Group`,
  `MembershipRow`), the message-insert `Payload`, the other `Write` requests and the shared
  `Selection` (`{type: 'dm' | 'group', id, name}`).
- `chat_window.dfy`: the chat window's pure logic and the class
  `ChatWindow`. The class holds the component's state fields (`messages`,
  `newMessage`, `showEmojiPicker`, `isRecording`, `groupMembers`,
  `showAddMembers`, `availableUsers`) and the `selectedChat` property. Its
  invariant is that every message carries a non-empty sender name.
- `sidebar.dfy`: the sidebar's pure logic and the class `Sidebar`, with the
  fields `onlineUsers`, `groups`, `showCreateGroup` and `newGroupName`. Its
  invariant is that only an admin ever has the create-group form open.

Behaviour of the code that the model keeps as written:

- A direct chat has one live channel. Its filter is an OR of two ANDs: sender
  and recipient in either direction.
- Live messages are appended as they arrive. Nothing removes a duplicate id,
  and nothing checks that the message belongs to the conversation now open.
- In a direct history, messages with equal timestamps keep the stable sort's
  input order: sent before received, and each list in its own order.
- A failed group-history query leaves `messages` as they were, which may be
  the previous conversation's messages. Selecting a conversation clears
  nothing first.
- The "no members yet" branch of `loadGroupMembers` runs only when the member
  query fails. A group with zero membership rows goes through the filter, and
  the filter then keeps the whole roster (`EligibleWithoutMembers`).
- `subscribeToMessages` returns a cleanup that removes its channel, but the
  effect never returns that cleanup, so channels are never torn down.

## Model

| member | source | states |
|---|---|---|
| `Trimming.TrimStartSpec` | components/Sidebar.tsx:128 | removing leading whitespace drops a blank prefix and nothing else: the result is a suffix of the text that does not start with whitespace |
| `Trimming.TrimEndSpec` | components/Sidebar.tsx:128 | removing trailing whitespace drops a blank suffix and nothing else: the result is a prefix of the text that does not end with whitespace |
| `Trimming.Trim` | components/Sidebar.tsx:128 | the trimmed text is the middle of the text between a blank prefix and a blank suffix; it is empty exactly when the text is blank (whitespace and line terminators only), and otherwise starts and ends with a non-whitespace character |
| `StableSort.InsertByPermutes` | components/ChatWindow.tsx:82-85 | inserting one element adds exactly that element to the multiset |
| `StableSort.SortByPermutes` | components/ChatWindow.tsx:82-85 | the sort returns a permutation of its input |
| `StableSort.SortByIsStableSort` | components/ChatWindow.tsx:82-85 | the sort by `created_at` is a permutation, is non-decreasing in the key, and for every key keeps the input order of the elements carrying it (stability) |
| `StableSort.SortBySortedInput` | components/ChatWindow.tsx:82-85 | an input already ordered by the key (as each server list is) comes back unchanged |
| `StableSort.SortPair` | components/ChatWindow.tsx:82-85 | two elements with different keys come out in key order whichever of them came first |
| `ChatWindow.DisplayName` | components/ChatWindow.tsx:90 | the display name is never empty; it is the profile's username when that is present and non-empty, and otherwise `Unknown` |
| `ChatWindow.WithSenderName` | components/ChatWindow.tsx:88-91 | naming a message sets its sender name from the profile and changes no other field |
| `ChatWindow.NameAll` | components/ChatWindow.tsx:101-106 | every row yields exactly one named message at the same position, so a missing profile never drops a message |
| `ChatWindow.DirectHistory` | components/ChatWindow.tsx:82-92 | definition: the sent rows then the received rows, a failed query counting as empty, stably sorted by `created_at`, then named; `DirectHistoryIsStableMerge` states its properties |
| `ChatWindow.GroupHistory` | components/ChatWindow.tsx:98-107 | definition: the named rows of the group query, or the current messages when the query failed; `LoadedMessagesNamed` states its properties |
| `ChatWindow.LoadedMessages` | components/ChatWindow.tsx:57-108 | definition: the direct history of the two direct queries for a direct chat, the group history of the group query for a group chat; `LoadedMessagesNamed` states its properties |
| `ChatWindow.NameAllSort` | components/ChatWindow.tsx:82-92 | naming after the sort gives the same list as sorting the named messages, since naming keeps every timestamp |
| `ChatWindow.DirectHistoryIsStableMerge` | components/ChatWindow.tsx:82-92 | the direct history is a permutation of the named sent and received messages and is non-decreasing in `created_at`; for every timestamp its messages are the sent ones, then the received ones, each in its own order; every message is named |
| `ChatWindow.DirectHistoryOneHalfFailed` | components/ChatWindow.tsx:83-84 | when one of the two direct queries fails, the other (server-ordered) list alone becomes the history |
| `ChatWindow.DistinctTimesOrder` | components/ChatWindow.tsx:65-92 | a sent and a received message with different timestamps load oldest first whichever query returned which, so both parties see the same order |
| `ChatWindow.TwoPartyScenario` | components/ChatWindow.tsx:65-92 | "hi" (t=100, 1→2) and "hello" (t=101, 2→1) load as "hi", "hello" on both users' clients, with the sender names filled in and `Unknown` for a missing profile |
| `ChatWindow.LoadedMessagesNamed` | components/ChatWindow.tsx:98-107 | loading keeps every message named, and a failed group query leaves the messages unchanged |
| `ChatWindow.LiveFilter` | components/ChatWindow.tsx:156-158 | definition: the OR-of-ANDs filter on (me, peer) for a direct chat, the group-id filter for a group chat |
| `ChatWindow.Accepts` | components/ChatWindow.tsx:156-158 | definition: the intended meaning of each filter expression on an inserted row (either direction between the two users, or equal group id) |
| `ChatWindow.Relevant` | components/ChatWindow.tsx:148-159 | definition: a message matches the filter of a chat's channel; `LiveFilterExact` states what that means |
| `ChatWindow.ChannelName` | components/ChatWindow.tsx:149 | definition: the channel name `messages:<type>:<id>` with `dm` or `group` as the type |
| `ChatWindow.Subscription` | components/ChatWindow.tsx:148-159 | the channel is named `messages:<type>:<id>` after the chat; its filter is the OR-of-ANDs exactly when the chat is direct, and it matches exactly the messages between me and the peer (direct) or of the group (group) |
| `ChatWindow.LiveFilterExact` | components/ChatWindow.tsx:156-158 | a direct chat's channel filter matches exactly the messages (me → peer) or (peer → me); a group chat's exactly those whose `group_id` is the group |
| `ChatWindow.DirectFilterSymmetric` | components/ChatWindow.tsx:157 | the filters of my direct chat with a peer and of the peer's direct chat with me match the same messages |
| `ChatWindow.DirectMessageStaysPrivate` | components/ChatWindow.tsx:156-158 | a direct message matches only the filter of a direct chat between its sender and recipient, never a third party's chat or a group chat |
| `ChatWindow.EffectiveContent` | components/ChatWindow.tsx:187 | a non-empty explicit content is sent exactly as given; otherwise the trimmed draft is sent; so the content is empty exactly when no non-empty explicit content is given and the draft is blank |
| `ChatWindow.SendPayload` | components/ChatWindow.tsx:184-200 | definition: the payload `sendMessage` inserts, or none when it returns early; `SendPayloadSpec` states its properties |
| `ChatWindow.SendPayloadSpec` | components/ChatWindow.tsx:184-200 | an insert happens exactly when a chat is selected and the content is non-empty or the type is voice; the payload carries the user as sender, the effective content and the type, and exactly one target: the recipient for a direct chat, the group for a group chat, equal to the chat's id |
| `ChatWindow.BlankDraftSendsNothing` | components/ChatWindow.tsx:187-188 | a blank draft without explicit content inserts nothing unless the type is voice |
| `ChatWindow.SentMessageMatchesFilter` | components/ChatWindow.tsx:184-202 | the row stored for a sent message matches the filter of the sender's own chat channel and, for a direct message, the filter of the recipient's chat with the sender |
| `ChatWindow.VoicePlaceholderIsSent` | components/ChatWindow.tsx:219-223 | ending a recording with a chat open always attempts a voice insert whose content is the placeholder |
| `ChatWindow.EligibleToAdd` | components/ChatWindow.tsx:129 | the eligible list holds only roster entries that are not members, and holds every roster entry that is not a member |
| `ChatWindow.EligibleToAddAppend` | components/ChatWindow.tsx:129 | the filter keeps a single entry exactly when it is not a member and distributes over concatenation, so the eligible list keeps roster order and holds each kept entry once |
| `ChatWindow.EligibleWithoutMembers` | components/ChatWindow.tsx:129 | with an empty member list every roster entry is eligible, in roster order |
| `ChatWindow.AvailableAfterLoad` | components/ChatWindow.tsx:118-141 | definition: the candidate list `loadGroupMembers` leaves for each outcome of the member and roster queries; `AvailableUsersRules` states its properties |
| `ChatWindow.AvailableUsersRules` | components/ChatWindow.tsx:118-141 | non-admins and failed roster queries leave the list unchanged; an admin with loaded members gets exactly the non-members; a failed member query gives the whole roster; a list built from rosters that exclude the user never holds the user |
| `ChatWindow.ChatWindow.constructor` | components/ChatWindow.tsx:28-34 | the component starts with no messages, an empty draft, closed picker and add list, not recording, no members and no candidates |
| `ChatWindow.ChatWindow.SelectChat` | components/ChatWindow.tsx:38-47 | a new selection loads its history, opens its channel and, for a group, loads its members; clearing the selection changes nothing else |
| `ChatWindow.ChatWindow.LoadMessages` | components/ChatWindow.tsx:57-108 | `messages` becomes the direct history of the two direct queries, or the named group rows, or stays as it was when the group query fails or nothing is selected; the invariant is kept |
| `ChatWindow.ChatWindow.SubscribeToMessages` | components/ChatWindow.tsx:145-182 | with a chat selected it opens that chat's channel, otherwise none |
| `ChatWindow.ChatWindow.OnInsert` | components/ChatWindow.tsx:160-175 | a live event appends exactly one named message at the end and leaves the existing messages unchanged |
| `ChatWindow.ChatWindow.LoadGroupMembers` | components/ChatWindow.tsx:110-143 | for a selected group the members become the query's list (unchanged on failure) and the candidates follow the eligibility rules; otherwise nothing changes |
| `ChatWindow.ChatWindow.EditDraft` | components/ChatWindow.tsx:417 | typing replaces the draft |
| `ChatWindow.ChatWindow.SendMessage` | components/ChatWindow.tsx:184-211 | the insert attempted is the payload above; only a successful insert clears the draft and closes the emoji picker; `messages` is outside its frame, so sending appends nothing locally |
| `ChatWindow.ChatWindow.HandleVoiceMessage` | components/ChatWindow.tsx:213-229 | without a recorder nothing changes; otherwise recording flips, and only the press that ends recording sends the voice placeholder |
| `ChatWindow.ChatWindow.HandleLeaveGroup` | components/ChatWindow.tsx:231-246 | leaving issues one delete exactly when a group is open, for the pair (that group, the current user) |
| `ChatWindow.ChatWindow.ToggleAddMembers` | components/ChatWindow.tsx:297-305 | the add-members button exists only for an admin in a group chat and flips whether the candidate list is open; otherwise nothing changes |
| `ChatWindow.ChatWindow.AddListShown` | components/ChatWindow.tsx:316 | definition: the candidate list is on screen only when it is open, the user is an admin and a group chat is selected |
| `ChatWindow.ChatWindow.HandleAddUserToGroup` | components/ChatWindow.tsx:248-264 | only an admin with a group open inserts the membership (group, target); a press on the shown candidate list always issues the insert; success reloads the members and closes the list; otherwise nothing changes |
| `Sidebar.ExtractGroups` | components/Sidebar.tsx:77-79 | every listed group is the joined group of some membership row, and every joined group is listed |
| `Sidebar.ExtractGroupsAppend` | components/Sidebar.tsx:77-79 | the groups appear in membership-row order |
| `Sidebar.ExtractGroupsAllJoined` | components/Sidebar.tsx:77-79 | when every row's group was found, the list is exactly those groups, one per row, in row order |
| `Sidebar.SelectUser` | components/Sidebar.tsx:206 | clicking a user selects a direct chat with that user's id, titled with the user's name |
| `Sidebar.SelectGroup` | components/Sidebar.tsx:231 | clicking a group selects a group chat with that group's id, titled with the group's name |
| `Sidebar.UserHighlighted` | components/Sidebar.tsx:207-209 | definition: a user entry is highlighted exactly when a direct chat with that user's id is selected |
| `Sidebar.GroupHighlighted` | components/Sidebar.tsx:232-234 | definition: a group entry is highlighted exactly when a group chat with that group's id is selected |
| `Sidebar.HighlightExclusive` | components/Sidebar.tsx:206-236 | a user entry and a group entry are never highlighted together, even when their ids are equal |
| `Sidebar.SelectionHighlightsItself` | components/Sidebar.tsx:203-241 | a click highlights exactly the same-list entries with the clicked id and nothing in the other list |
| `Sidebar.Sidebar.constructor` | components/Sidebar.tsx:28-33 | the sidebar starts with empty lists, a hidden form and an empty group name, for the given user and admin flag |
| `Sidebar.Sidebar.Mount` | components/Sidebar.tsx:36-49 | mounting loads both lists and marks only the current user online |
| `Sidebar.Sidebar.Unmount` | components/Sidebar.tsx:46-56 | the cleanup marks only the current user offline |
| `Sidebar.Sidebar.LoadUsers` | components/Sidebar.tsx:58-68 | the user list becomes the query's rows, or stays on failure |
| `Sidebar.Sidebar.LoadGroups` | components/Sidebar.tsx:70-82 | the group list becomes the extracted groups, or stays when the query fails |
| `Sidebar.Sidebar.ToggleCreateGroup` | components/Sidebar.tsx:170-179 | for an admin the button flips the form's visibility; a non-admin has no button, so the form stays closed; only an admin ever has the form open |
| `Sidebar.Sidebar.EditGroupName` | components/Sidebar.tsx:180-186 | typing into the open form's name box replaces the group name |
| `Sidebar.Sidebar.HandleCreateGroup` | components/Sidebar.tsx:127-155 | a blank name issues no write and changes nothing; otherwise the group is inserted with the name exactly as typed; if that insert fails nothing else happens; on success exactly one membership (new group, creator) is inserted, its outcome ignored, then the name is cleared, the form hidden and the groups reloaded; it runs only from the open form, so only an admin ever issues these writes, and only an admin has the form open afterwards |

## Left out

- The hosted backend itself: queries, inserts, deletes, updates, realtime
  channels, `subscribe` and `removeChannel`. Their results are parameters and
  their requests are returned values. The server-side ordering by
  `created_at`, the `neq` exclusion of the current user and the ordering of
  users by name are properties of the parameters, not checked by the model.
- Whether the realtime service honours the filter strings: the direct
  chat's filter is an `or(and(…),and(…))` expression, while every other live
  filter in the code has the `column=eq.value` form. `Accepts` gives each
  filter its intended meaning; the model does not cover whether the service
  evaluates an `or(…)` filter that way, so the "matches the filter" lemmas
  say nothing about what the service actually delivers.
- Asynchrony: each handler runs to completion with the results it is given.
  Interleavings are not modelled. Examples are a reply arriving after another
  conversation was selected, or typing between a send and its completion.
  Channels that are never torn down, and so keep appending other
  conversations' messages, are not modelled either.
- The profile-change and membership-change subscriptions of the sidebar
  (`components/Sidebar.tsx:84-125`): their handlers only re-run `loadUsers` and
  `loadGroups`, which `LoadUsers` and `LoadGroups` model.
- Parsing `created_at` strings into times (`new Date(…).getTime()`), time
  formatting, the `last_seen` timestamp of presence updates: timestamps are
  integers, and `UpdatePresence` carries no time.
- The rendering, scrolling, the emoji picker's own toggle and close buttons,
  the `alert` shown without a recorder (only its "nothing changes" is
  modelled), and the page reload after leaving a group. The reload resets all
  component state; the model keeps the state unchanged after leaving.
- The admin flag is fixed when a `ChatWindow` or a `Sidebar` is built. Its
  later arrival from the profile query in `components/ChatApp.tsx` is not
  part of this model. The buttons that only an admin sees are modelled by
  their handlers doing nothing for a non-admin (`ToggleCreateGroup`,
  `ToggleAddMembers`). The controls inside the create-group form
  (`EditGroupName`, `HandleCreateGroup`) require the form to be open, which
  only an admin can do.
- The `console.error` logging of failed writes
  (`components/ChatWindow.tsx:205`, `241`, `259`;
  `components/Sidebar.tsx:140`): only the branch the handler takes on a
  failed write is modelled.
- String length and encoding: JavaScript strings are UTF-16 code units, while
  the model's strings are sequences of Unicode scalar values. Only emptiness
  and whitespace matter to the logic.
- The login page, the session check and redirect, and the wiring component:
  `app/login/page.tsx`, `app/page.tsx` and `components/ChatApp.tsx` are not
  part of this model.
