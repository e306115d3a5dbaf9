/**
 * How the two halves of the system fit together: what the backend publishes
 * or returns is what the browser's reducers, routing and decoders expect.
 */
module Agreement {
  import opened Wrappers
  import opened Protocol
  import Backend
  import Inbound
  import ChatRoom

  /**
   * A message `send_message` accepts is published on the channel of its own
   * chat, and dispatching that event puts the message in the inbox of every
   * client that receives it, exactly once however often it arrives.
   */
  lemma SentMessageReachesInbox(req: Backend.SendRequest, user: Backend.CurrentUser,
                                chats: map<ChatId, seq<UserId>>, saveOk: bool, newId: string, now: string,
                                f: Inbound.Feeds)
    requires Backend.SendMessage(req, user, chats, saveOk, newId, now).Ok?
    ensures var s := Backend.SendMessage(req, user, chats, saveOk, newId, now).value;
      var g := Inbound.Dispatch(f, s.event.data);
      && ChatOf(s.event.channel) == Some(req.chatId.value)
      && Inbound.HasId(g.messages, newId)
      && g.typing == f.typing && g.online == f.online
      && Inbound.Dispatch(g, s.event.data) == g
  {
    var s := Backend.SendMessage(req, user, chats, saveOk, newId, now).value;
    Backend.SentMessageFields(req, user, chats, saveOk, newId, now);
    ChatOfChannelFor(req.chatId.value);
    Inbound.RouteMatchesPublisher(s.event.data);
    Inbound.AppendMessageIdempotent(f.messages, s.message);
  }

  /**
   * A typing event the backend publishes updates the typing feed with the
   * authenticated user's entry and leaves the other feeds alone.
   */
  lemma TypingEventReachesFeed(req: Backend.TypingRequest, user: Backend.CurrentUser, f: Inbound.Feeds)
    ensures var g := Inbound.Dispatch(f, Backend.TypingEvent(req, user).data);
      && g.typing == Inbound.ApplyTyping(f.typing, TypingPayload(user.id, user.username, req.isTyping))
      && g.messages == f.messages && g.online == f.online
  {
    Inbound.RouteMatchesPublisher(Backend.TypingEvent(req, user).data);
  }

  /** An online-status event marks its user online or offline and touches no one else. */
  lemma PresenceEventReachesFeed(chatId: ChatId, user: Backend.CurrentUser, isOnline: bool, f: Inbound.Feeds)
    ensures var g := Inbound.Dispatch(f, Backend.PresenceEvent(chatId, user, isOnline).data);
      && (user.id in g.online <==> isOnline)
      && (forall u :: u != user.id ==> (u in g.online <==> u in f.online))
      && g.messages == f.messages && g.typing == f.typing
  {
    Inbound.RouteMatchesPublisher(Backend.PresenceEvent(chatId, user, isOnline).data);
  }

  /** An ObjectId text holds no `|`. */
  lemma ObjectIdHasNoBar(s: string)
    requires Backend.IsObjectIdText(s)
    ensures '|' !in s
  {
  }

  /** One participant's label decodes to its username. */
  lemma LabelDecodes(pid: UserId, username: string)
    requires Backend.IsObjectIdText(pid) && !ChatRoom.Contains(username, LabelSeparator)
    ensures ChatRoom.SecondField(Label(pid, username)) == Some(username)
  {
    ObjectIdHasNoBar(pid);
    ChatRoom.SecondFieldOfLabel(pid, username);
  }

  /**
   * The chat list's participant labels decode, in the browser, to the
   * usernames the backend looked up, one per found participant, as long as
   * no username holds the separator.
   */
  lemma LabelsDecodeToUsernames(participants: seq<UserId>, users: map<UserId, Backend.UserDoc>)
    requires forall j :: 0 <= j < |participants| ==> Backend.IsObjectIdText(participants[j])
    requires forall u :: u in users ==> !ChatRoom.Contains(Backend.UsernameOf(users[u]), LabelSeparator)
    ensures Backend.Labels(participants, users).Ok?
    ensures var ls := Backend.Labels(participants, users).value;
      var found := Backend.Found(participants, users);
      && |ls| == |found|
      && forall k :: 0 <= k < |ls| ==> ChatRoom.SecondField(ls[k]) == Some(Backend.UsernameOf(users[found[k]]))
  {
    Backend.LabelsOfFound(participants, users);
    var ls := Backend.Labels(participants, users).value;
    var found := Backend.Found(participants, users);
    forall k | 0 <= k < |ls|
      ensures ChatRoom.SecondField(ls[k]) == Some(Backend.UsernameOf(users[found[k]]))
    {
      var u := found[k];
      assert u in found;
      var j :| 0 <= j < |participants| && participants[j] == u;
      LabelDecodes(u, Backend.UsernameOf(users[u]));
    }
  }

  /**
   * The browser's size cap and the server's agree: a file the composer
   * accepts is stored and its message published by a member of a chat with
   * a well-formed id, when saving succeeds.
   */
  lemma AcceptedFileIsStored(file: ChatRoom.FileInfo, chatId: ChatId, content: Option<string>,
                             user: Backend.CurrentUser, chats: map<ChatId, seq<UserId>>, newId: string, now: string)
    requires file.size <= MaxUploadBytes
    requires Backend.IsObjectIdText(chatId) && chatId in chats && user.id in chats[chatId]
    ensures var req := Backend.SendRequest(Some(chatId), content, "file",
                                           Some(Backend.Upload(file.size, file.name, file.mimeType)));
      var r := Backend.SendMessage(req, user, chats, true, newId, now);
      r.Ok? && r.value.fileStored
  {
  }
}
