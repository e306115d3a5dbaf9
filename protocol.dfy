/**
 * What the backend and the browser client agree on: how a conversation is
 * named as a broker channel, the type tags of the events published on it, the
 * shape of those events, the participant-label format and the upload cap.
 */
module Protocol {
  import opened Wrappers

  type ChatId = string
  type UserId = string
  type Channel = string

  /** Every conversation has one broker channel, `"chat-" + chat id`. */
  function ChannelFor(chatId: ChatId): (c: Channel)
  {
    "chat-" + chatId
  }

  /** The conversation a channel belongs to, when it is a conversation channel. */
  function ChatOf(c: Channel): (r: Option<ChatId>)
    ensures r.Some? <==> |c| >= 5 && c[..5] == "chat-"
    ensures r.Some? ==> ChannelFor(r.value) == c
  {
    if |c| >= 5 && c[..5] == "chat-" then Some(c[5..]) else None
  }

  /** Channel naming loses nothing: the chat id can be read back from it. */
  lemma ChatOfChannelFor(chatId: ChatId)
    ensures ChatOf(ChannelFor(chatId)) == Some(chatId)
  {
    var c := ChannelFor(chatId);
    assert c[..5] == "chat-";
    assert c[5..] == chatId;
  }

  /** Distinct conversations never share a channel. */
  lemma ChannelForInjective(a: ChatId, b: ChatId)
    ensures ChannelFor(a) == ChannelFor(b) <==> a == b
  {
    if ChannelFor(a) == ChannelFor(b) {
      ChatOfChannelFor(a);
      ChatOfChannelFor(b);
    }
  }

  // The type tags carried in the `type` field of every published event.
  const NewMessageTag: string := "new_message"
  const TypingTag: string := "typing_indicator"
  const OnlineStatusTag: string := "online_status"

  /** One chat message as the backend serialises it. */
  datatype Message = Message(
    id: string,
    chatId: ChatId,
    senderId: UserId,
    senderUsername: string,
    content: Option<string>,
    messageType: string,
    createdAt: string)

  /** The body of a `typing_indicator` event; the client keeps the whole event as a typing entry. */
  datatype TypingPayload = TypingPayload(userId: UserId, username: string, isTyping: bool)

  /** The body of an `online_status` event. */
  datatype PresencePayload = PresencePayload(userId: UserId, username: string, isOnline: bool)

  /** An event as it travels on a conversation channel. */
  datatype Publication =
    | NewMessagePub(message: Message, chatId: ChatId, senderId: UserId)
    | TypingPub(typing: TypingPayload)
    | OnlineStatusPub(presence: PresencePayload)
    | OtherPub(tag: string)

  /** The `type` field of an event. */
  function TypeTag(p: Publication): (t: string)
    ensures p.OtherPub? ==> t == p.tag
    ensures !p.OtherPub? ==> t in {NewMessageTag, TypingTag, OnlineStatusTag}
  {
    match p
    case NewMessagePub(_, _, _) => NewMessageTag
    case TypingPub(_) => TypingTag
    case OnlineStatusPub(_) => OnlineStatusTag
    case OtherPub(tag) => tag
  }

  /** One call to the broker's publish API. */
  datatype Publish = Publish(channel: Channel, data: Publication)

  /** Separator between the user id and the username in a participant label. */
  const LabelSeparator: string := "||||"

  /** The participant label the backend attaches to a chat. */
  function Label(participantId: UserId, username: string): string
  {
    participantId + LabelSeparator + username
  }

  /** Both the browser and the backend refuse uploads larger than 10 MiB. */
  const MaxUploadBytes: nat := 10 * 1024 * 1024
}
