/**
 * The records the two components read from and write to the backend, and the
 * conversation selection they share. Identifiers are the backend's opaque
 * strings; `created_at` is an integer timestamp.
 */
module Records {
  import opened Wrappers

  /** The `type` of a selected chat: `'dm'` or `'group'`. */
  datatype ChatType = DmChat | GroupChat

  /** `selectedChat`: which conversation is open, its peer or group id, and its title. */
  datatype Selection = Selection(kind: ChatType, id: string, name: string)

  datatype MessageType = Text | Emoji | Voice

  /**
   * A row of `messages`. `senderUsername` is not a column: the chat window
   * fills it in from the sender's profile. A direct message has a recipient,
   * a group message a group.
   */
  datatype Message = Message(
    id: string,
    content: string,
    messageType: MessageType,
    senderId: string,
    senderUsername: Option<string>,
    createdAt: int,
    groupId: Option<string>,
    recipientId: Option<string>)

  /** A profile as the add-member list shows it. */
  datatype Profile = Profile(id: string, username: string)

  /** A profile as the sidebar's direct-message list shows it. */
  datatype OnlineUser = OnlineUser(id: string, username: string, email: string, isOnline: bool)

  datatype Group = Group(id: string, name: string, createdBy: string)

  /** A `group_members` row of the current user joined with its group, which may be missing. */
  datatype MembershipRow = MembershipRow(groupId: string, group: Option<Group>)

  /** The fields `sendMessage` inserts into `messages`; exactly one of the two targets is set. */
  datatype Payload = Payload(
    senderId: string,
    content: string,
    messageType: MessageType,
    recipientId: Option<string>,
    groupId: Option<string>)

  /** A write the components ask the backend to perform, other than a message insert (see `Payload`). */
  datatype Write =
    | InsertGroup(name: string, createdBy: string)
    | InsertMembership(groupId: string, userId: string)
    | DeleteMembership(groupId: string, userId: string)
    | UpdatePresence(userId: string, isOnline: bool)
}
