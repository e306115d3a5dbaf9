/**
 * The document and event transforms of the HTTP backend, backend-api/main.py:
 * `serialize_doc`, the creator insertion and participant labels of the chat
 * endpoints, the message page window, the checks of `send_message` and the
 * events published by `send_message`, `send_typing_indicator` and
 * `update_online_status`. The database and the broker are parameters: a
 * lookup map stands for each `find_one`, and the published events are
 * returned.
 */
module Backend {
  import opened Wrappers
  import opened Protocol
  import opened Numbers

  // ------------------------------------------------------------ documents

  /** A BSON value as the driver hands it to Python. */
  datatype Value =
    | VNull
    | VBool(b: bool)
    | VInt(i: int)
    | VStr(s: string)
    | VOid(hex: string)
    | VDateTime(date: string, time: string)
    | VList(items: seq<Value>)
    | VDict(fields: map<string, Value>)

  /** `datetime.isoformat()` */
  function Iso(date: string, time: string): string
  {
    date + "T" + time
  }

  function DigitChar(d: nat): char
    requires d < 10
  {
    "0123456789"[d]
  }

  /** The decimal text of a natural number. */
  function Decimal(n: nat): (s: string)
    ensures |s| >= 1
    decreases n
  {
    if n < 10 then [DigitChar(n)] else Decimal(n / 10) + [DigitChar(n % 10)]
  }

  /**
   * `str(doc["_id"])` for the values an `_id` takes in this system. The
   * rendering of a list or sub-document is not part of this model: it is
   * written as the empty text.
   */
  function IdText(v: Value): string
  {
    match v
    case VOid(hex) => hex
    case VStr(s) => s
    case VInt(i) => if i < 0 then "-" + Decimal(-i) else Decimal(i)
    case VBool(b) => if b then "True" else "False"
    case VNull => "None"
    case VDateTime(date, time) => date + " " + time
    case VList(_) => ""
    case VDict(_) => ""
  }

  /**
   * `serialize_doc` on a dict: `_id` becomes the text `id`, and every value
   * is converted by `Converted`.
   */
  function SerializedDoc(doc: map<string, Value>): (r: map<string, Value>)
    decreases VDict(doc), 0
  {
    (map k | k in doc && k != "_id" :: Converted(doc[k]))
    + (if "_id" in doc then map["id" := VStr(IdText(doc["_id"]))] else map[])
  }

  /** One value of a serialised dict: a datetime, a dict or a list is converted. */
  function Converted(v: Value): (r: Value)
    decreases v, 1
  {
    match v
    case VDateTime(date, time) => VStr(Iso(date, time))
    case VDict(m) => VDict(SerializedDoc(m))
    case VList(xs) => VList(SerializedList(xs))
    case _ => v
  }

  /** The list comprehension: dict and datetime elements are converted, the rest kept. */
  function SerializedList(xs: seq<Value>): (r: seq<Value>)
    ensures |r| == |xs|
    decreases VList(xs), 0
  {
    seq(|xs|, i requires 0 <= i < |xs| => Element(xs[i]))
  }

  function Element(v: Value): (r: Value)
    decreases v, 1
  {
    match v
    case VDict(m) => VDict(SerializedDoc(m))
    case VDateTime(date, time) => VStr(Iso(date, time))
    case _ => v
  }

  /**
   * `serialize_doc(doc)`: an empty (falsy) dict is returned as it is;
   * otherwise `_id` is renamed in place, then each key's value is rewritten,
   * nested dicts by a recursive call and lists by the comprehension.
   */
  method SerializeDoc(doc: map<string, Value>) returns (r: map<string, Value>)
    ensures r == SerializedDoc(doc)
    decreases VDict(doc), 0
  {
    if |doc| == 0 {
      return doc;
    }
    r := doc;
    if "_id" in r {
      r := r["id" := VStr(IdText(r["_id"]))];
      r := r - {"_id"};
    }
    ghost var renamed := r;
    var keys := r.Keys;
    while keys != {}
      invariant keys <= renamed.Keys && r.Keys == renamed.Keys
      invariant forall k :: k in r ==> r[k] == if k in keys then renamed[k] else Converted(renamed[k])
      decreases keys
    {
      var key :| key in keys;
      var value := r[key];
      assert value == renamed[key];
      match value {
        case VDateTime(date, time) =>
          r := r[key := VStr(Iso(date, time))];
        case VDict(m) =>
          assert value == doc[key];
          var inner := SerializeDoc(m);
          r := r[key := VDict(inner)];
        case VList(xs) =>
          r := r[key := VList(SerializedList(xs))];
        case _ =>
      }
      keys := keys - {key};
    }
    SerializedRenamed(doc, renamed, r);
  }

  lemma SerializedRenamed(doc: map<string, Value>, renamed: map<string, Value>, r: map<string, Value>)
    requires renamed == if "_id" in doc then doc["id" := VStr(IdText(doc["_id"]))] - {"_id"} else doc
    requires r.Keys == renamed.Keys && forall k :: k in r ==> r[k] == Converted(renamed[k])
    ensures r == SerializedDoc(doc)
  {
    var s := SerializedDoc(doc);
    assert r.Keys == s.Keys;
    forall k | k in r ensures r[k] == s[k] {
      if "_id" in doc && k == "id" {
        assert renamed[k] == VStr(IdText(doc["_id"]));
      }
    }
  }

  /** `_id` leaves, `id` holds its text, and no other key appears or disappears. */
  lemma SerializedDocKeys(doc: map<string, Value>)
    ensures "_id" !in SerializedDoc(doc)
    ensures "_id" in doc ==> SerializedDoc(doc)["id"] == VStr(IdText(doc["_id"]))
    ensures SerializedDoc(doc).Keys == if "_id" in doc then doc.Keys - {"_id"} + {"id"} else doc.Keys
  {
  }

  /**
   * What a serialised value looks like: no datetime, no `_id` in any dict,
   * and in a list no datetime element and only serialised dict elements;
   * a list inside a list is not looked into.
   */
  ghost predicate Clean(v: Value)
    decreases v, 1
  {
    match v
    case VDateTime(_, _) => false
    case VDict(m) => CleanDoc(m)
    case VList(xs) => forall i :: 0 <= i < |xs| ==> CleanElement(xs[i])
    case _ => true
  }

  ghost predicate CleanDoc(m: map<string, Value>)
    decreases VDict(m), 0
  {
    "_id" !in m && forall k :: k in m ==> Clean(m[k])
  }

  ghost predicate CleanElement(v: Value)
    decreases v, 1
  {
    match v
    case VDateTime(_, _) => false
    case VDict(m) => CleanDoc(m)
    case _ => true
  }

  /** Serialising leaves no datetime and no `_id` where `serialize_doc` looks. */
  lemma {:induction false} SerializedDocIsClean(doc: map<string, Value>)
    ensures CleanDoc(SerializedDoc(doc))
    decreases VDict(doc), 0
  {
    var s := SerializedDoc(doc);
    forall k | k in s ensures Clean(s[k]) {
      if k in doc && k != "_id" {
        ConvertedIsClean(doc[k]);
      }
    }
  }

  lemma {:induction false} ConvertedIsClean(v: Value)
    ensures Clean(Converted(v))
    decreases v, 1
  {
    match v
    case VDict(m) => SerializedDocIsClean(m);
    case VList(xs) =>
      var ys := SerializedList(xs);
      forall i | 0 <= i < |ys| ensures CleanElement(ys[i]) {
        ElementIsClean(xs[i]);
      }
    case _ =>
  }

  lemma {:induction false} ElementIsClean(v: Value)
    ensures CleanElement(Element(v))
    decreases v, 1
  {
    match v
    case VDict(m) => SerializedDocIsClean(m);
    case _ =>
  }

  /** A clean dict is a fixed point of `serialize_doc`. */
  lemma {:induction false} CleanDocUnchanged(doc: map<string, Value>)
    requires CleanDoc(doc)
    ensures SerializedDoc(doc) == doc
    decreases VDict(doc), 0
  {
    var s := SerializedDoc(doc);
    forall k | k in doc ensures s[k] == doc[k] {
      CleanUnchanged(doc[k]);
    }
  }

  lemma {:induction false} CleanUnchanged(v: Value)
    requires Clean(v)
    ensures Converted(v) == v
    decreases v, 1
  {
    match v
    case VDict(m) => CleanDocUnchanged(m);
    case VList(xs) =>
      forall i | 0 <= i < |xs| ensures Element(xs[i]) == xs[i] {
        CleanElementUnchanged(xs[i]);
      }
      assert SerializedList(xs) == xs;
    case _ =>
  }

  lemma {:induction false} CleanElementUnchanged(v: Value)
    requires CleanElement(v)
    ensures Element(v) == v
    decreases v, 1
  {
    match v
    case VDict(m) => CleanDocUnchanged(m);
    case _ =>
  }

  /** Serialising twice is serialising once, so a document passed through two handlers is safe. */
  lemma SerializeDocIdempotent(doc: map<string, Value>)
    ensures SerializedDoc(SerializedDoc(doc)) == SerializedDoc(doc)
  {
    SerializedDocIsClean(doc);
    CleanDocUnchanged(SerializedDoc(doc));
  }

  // ------------------------------------------------------------ participants

  /** `if current_user.id not in participants: participants.append(current_user.id)` */
  function EnsureCreator(participants: seq<UserId>, creator: UserId): (r: seq<UserId>)
  {
    if creator in participants then participants else participants + [creator]
  }

  /**
   * Afterwards the creator is a member exactly once more than zero times:
   * the list keeps its order, gains the creator only when absent, and no one
   * else's count changes.
   */
  lemma EnsureCreatorMember(participants: seq<UserId>, creator: UserId)
    ensures var r := EnsureCreator(participants, creator);
      && creator in r
      && participants <= r
      && multiset(r)[creator] == (if creator in participants then multiset(participants)[creator] else 1)
      && forall u :: u != creator ==> multiset(r)[u] == multiset(participants)[u]
  {
  }

  lemma EnsureCreatorIdempotent(participants: seq<UserId>, creator: UserId)
    ensures EnsureCreator(EnsureCreator(participants, creator), creator) == EnsureCreator(participants, creator)
  {
  }

  /** A user record: its `username` field, if present. */
  datatype UserDoc = UserDoc(username: Option<string>)

  /** `user.get("username", "Unknown")` */
  function UsernameOf(u: UserDoc): string
  {
    if u.username.Some? then u.username.value else "Unknown"
  }

  /** `ObjectId(text)` accepts exactly 24 hexadecimal digits. */
  predicate IsObjectIdText(s: string)
  {
    |s| == 24 && forall i :: 0 <= i < |s| ==> s[i] in "0123456789abcdefABCDEF"
  }

  /** The error a request ends with: its HTTP status code. */
  type Status = nat

  /** The labels of the found participants, in participant order. */
  function Labels(participants: seq<UserId>, users: map<UserId, UserDoc>): (r: Result<seq<string>, Status>)
  {
    if participants == [] then Ok([])
    else if !IsObjectIdText(participants[0]) then Err(500)
    else match Labels(participants[1..], users)
      case Err(e) => Err(e)
      case Ok(rest) =>
        Ok((if participants[0] in users then [Label(participants[0], UsernameOf(users[participants[0]]))] else [])
           + rest)
  }

  /** The participants a lookup finds, in order. */
  function Found(participants: seq<UserId>, users: map<UserId, UserDoc>): (r: seq<UserId>)
    ensures forall u :: u in r <==> u in participants && u in users
  {
    if participants == [] then []
    else (if participants[0] in users then [participants[0]] else []) + Found(participants[1..], users)
  }

  /**
   * The label loop of `create_chat` and `get_user_chats`: one lookup per
   * participant; an id that is not an ObjectId aborts the request.
   */
  method ParticipantLabels(participants: seq<UserId>, users: map<UserId, UserDoc>)
    returns (r: Result<seq<string>, Status>)
    ensures r == Labels(participants, users)
  {
    var labels: seq<string> := [];
    var i := 0;
    assert participants[0..] == participants;
    assert LabelsSplit(participants, 0, users, labels) by {
      match Labels(participants, users)
      case Err(_) =>
      case Ok(rest) => assert labels + rest == rest;
    }
    while i < |participants|
      invariant i <= |participants|
      invariant forall j :: 0 <= j < i ==> IsObjectIdText(participants[j])
      invariant LabelsSplit(participants, i, users, labels)
    {
      var pid := participants[i];
      if !IsObjectIdText(pid) {
        LabelsFail(participants, i, users);
        return Err(500);
      }
      if pid in users {
        labels := labels + [Label(pid, UsernameOf(users[pid]))];
      }
      LabelsStep(participants, i, users, labels);
      i := i + 1;
    }
    assert participants[i..] == [];
    assert labels + [] == labels;
    return Ok(labels);
  }

  /** `labels` is what the participants before `i` contribute to the whole answer. */
  ghost predicate LabelsSplit(participants: seq<UserId>, i: nat, users: map<UserId, UserDoc>, labels: seq<string>)
    requires i <= |participants|
  {
    match Labels(participants[i..], users)
    case Err(e) => Labels(participants, users) == Err(e)
    case Ok(rest) => Labels(participants, users) == Ok(labels + rest)
  }

  lemma {:induction false} LabelsFail(participants: seq<UserId>, i: nat, users: map<UserId, UserDoc>)
    requires i < |participants| && !IsObjectIdText(participants[i])
    requires forall j :: 0 <= j < i ==> IsObjectIdText(participants[j])
    ensures Labels(participants, users) == Err(500)
    decreases i
  {
    if i > 0 {
      LabelsFail(participants[1..], i - 1, users);
    }
  }

  lemma LabelsStep(participants: seq<UserId>, i: nat, users: map<UserId, UserDoc>, labels: seq<string>)
    requires i < |participants| && IsObjectIdText(participants[i])
    requires participants[i] in users ==>
               |labels| >= 1 && labels[|labels| - 1] == Label(participants[i], UsernameOf(users[participants[i]]))
    requires LabelsSplit(participants, i, users,
                         if participants[i] in users then labels[..|labels| - 1] else labels)
    ensures LabelsSplit(participants, i + 1, users, labels)
  {
    var tail := participants[i..];
    assert tail[0] == participants[i] && tail[1..] == participants[i + 1..];
    var before := if participants[i] in users then labels[..|labels| - 1] else labels;
    var own := if participants[i] in users then [Label(participants[i], UsernameOf(users[participants[i]]))] else [];
    assert before + own == labels;
    match Labels(participants[i + 1..], users)
    case Err(e) =>
      assert Labels(tail, users) == Err(e);
    case Ok(rest) =>
      assert Labels(tail, users) == Ok(own + rest);
      assert before + (own + rest) == labels + rest;
  }

  /** Labels are produced for the found users only, in participant order, one each. */
  lemma {:induction false} LabelsOfFound(participants: seq<UserId>, users: map<UserId, UserDoc>)
    requires forall j :: 0 <= j < |participants| ==> IsObjectIdText(participants[j])
    ensures Labels(participants, users).Ok?
    ensures var ls := Labels(participants, users).value;
      var found := Found(participants, users);
      && |ls| == |found|
      && forall k :: 0 <= k < |ls| ==> ls[k] == Label(found[k], UsernameOf(users[found[k]]))
    decreases |participants|
  {
    if participants != [] {
      LabelsOfFound(participants[1..], users);
    }
  }

  // ------------------------------------------------------------ message pages

  /** Why a page request is not answered with messages. */
  datatype PageError = NegativeSkip | LimitNotPositive

  function Reverse<T>(s: seq<T>): (r: seq<T>)
    ensures |r| == |s| && forall k :: 0 <= k < |s| ==> r[k] == s[|s| - 1 - k]
  {
    if s == [] then [] else Reverse(s[1..]) + [s[0]]
  }

  /**
   * `get_chat_messages` on the chat's messages sorted newest first: skip
   * `(page - 1) * limit`, take up to `limit`, then reverse into
   * chronological order. A negative skip is refused by the driver; a limit
   * below one is not part of this model.
   */
  function PageWindow(newestFirst: seq<Message>, page: int, limit: int): (r: Result<seq<Message>, PageError>)
    ensures r.Ok? <==> page >= 1 && limit >= 1
    ensures r.Ok? ==> |r.value| <= limit
  {
    if limit < 1 then Err(LimitNotPositive)
    else if page < 1 then Err(NegativeSkip)
    else
      var skip := Skip(page, limit);
      var start := Min(skip, |newestFirst|);
      var stop := Min(skip + limit, |newestFirst|);
      Ok(Reverse(newestFirst[start..stop]))
  }

  /** Messages sorted newest first by the timestamp `at`. */
  ghost predicate NewestFirst(ms: seq<Message>, at: Message -> int)
  {
    forall i, j :: 0 <= i < j < |ms| ==> at(ms[i]) >= at(ms[j])
  }

  /** Every page is in ascending time order. */
  lemma PageAscending(newestFirst: seq<Message>, page: int, limit: int, at: Message -> int)
    requires NewestFirst(newestFirst, at)
    requires PageWindow(newestFirst, page, limit).Ok?
    ensures var p := PageWindow(newestFirst, page, limit).value;
      forall i, j :: 0 <= i < j < |p| ==> at(p[i]) <= at(p[j])
  {
  }

  /** The first page ends with the newest message. */
  lemma FirstPageEndsWithNewest(newestFirst: seq<Message>, limit: int)
    requires limit >= 1 && newestFirst != []
    ensures var p := PageWindow(newestFirst, 1, limit).value;
      p != [] && p[|p| - 1] == newestFirst[0]
  {
  }

  /**
   * How many of the newest messages the page `page` skips, one `limit` per
   * earlier page; `SkipIsProduct` shows it is `(page - 1) * limit`.
   */
  function Skip(page: int, limit: int): nat
    requires page >= 1 && limit >= 1
  {
    if page == 1 then 0 else Skip(page - 1, limit) + limit
  }

  lemma {:induction false} SkipIsProduct(page: int, limit: int)
    requires page >= 1 && limit >= 1
    ensures Skip(page, limit) == (page - 1) * limit
  {
    if page > 1 {
      SkipIsProduct(page - 1, limit);
      assert (page - 1) * limit == (page - 2) * limit + limit;
    }
  }

  /**
   * Loading the next (older) page and putting it in front of the current
   * one gives a gap-free stretch of history: the two pages tile the
   * `2 * limit` messages that follow the ones the current page skips.
   */
  lemma PagesTile(newestFirst: seq<Message>, page: int, limit: int)
    requires page >= 1 && limit >= 1
    ensures var n := |newestFirst|;
      var skip := Skip(page, limit);
      PageWindow(newestFirst, page + 1, limit).value + PageWindow(newestFirst, page, limit).value
        == Reverse(newestFirst[Min(skip, n)..Min(skip + 2 * limit, n)])
  {
    var n := |newestFirst|;
    var a := Skip(page, limit);
    var skip, mid, stop := Min(a, n), Min(a + limit, n), Min(a + 2 * limit, n);
    assert Skip(page + 1, limit) == a + limit;
    assert a + limit + limit == a + 2 * limit;
    WindowAt(newestFirst, page, limit, skip, mid);
    WindowAt(newestFirst, page + 1, limit, mid, stop);
    ReverseSlices(newestFirst, skip, mid, stop);
  }

  /** Two adjacent slices, each reversed, put the later one first. */
  lemma ReverseSlices<T>(s: seq<T>, i: nat, j: nat, k: nat)
    requires i <= j <= k <= |s|
    ensures Reverse(s[j..k]) + Reverse(s[i..j]) == Reverse(s[i..k])
  {
    ConcatSlices(s, i, j, k);
    ReverseAppend(s[i..j], s[j..k]);
  }

  /** The page `page` is the reversed slice between `start` and `stop`. */
  lemma WindowAt(newestFirst: seq<Message>, page: int, limit: int, start: nat, stop: nat)
    requires page >= 1 && limit >= 1
    requires start == Min(Skip(page, limit), |newestFirst|)
    requires stop == Min(Skip(page, limit) + limit, |newestFirst|)
    ensures start <= stop <= |newestFirst|
    ensures PageWindow(newestFirst, page, limit) == Ok(Reverse(newestFirst[start..stop]))
  {
  }

  lemma ConcatSlices<T>(s: seq<T>, i: nat, j: nat, k: nat)
    requires i <= j <= k <= |s|
    ensures s[i..j] + s[j..k] == s[i..k]
  {
  }

  lemma ReverseAppend<T>(a: seq<T>, b: seq<T>)
    ensures Reverse(a + b) == Reverse(b) + Reverse(a)
  {
    var l, r := Reverse(a + b), Reverse(b) + Reverse(a);
    assert |l| == |r|;
    forall k | 0 <= k < |l| ensures l[k] == r[k] {
      if k < |b| {
        assert l[k] == (a + b)[|a| + |b| - 1 - k] == b[|b| - 1 - k];
      } else {
        assert l[k] == (a + b)[|a| + |b| - 1 - k] == a[|a| - 1 - (k - |b|)];
      }
    }
  }

  // ------------------------------------------------------------ send_message

  /** The authenticated user of a request. */
  datatype CurrentUser = CurrentUser(id: UserId, username: string)

  /** An uploaded file: its byte size, name and content type. */
  datatype Upload = Upload(size: nat, name: string, contentType: string)

  /** The fields of a `POST /messages` request, JSON or form. */
  datatype SendRequest = SendRequest(
    chatId: Option<string>,
    content: Option<string>,
    messageType: string,
    file: Option<Upload>)

  /** A saved message and the `new_message` event published for it. */
  datatype Sent = Sent(message: Message, fileStored: bool, event: Publish)

  /**
   * `send_message`. `chats` maps each chat id to its participants;
   * `saveOk` says whether storing the upload succeeds; `newId` and `now`
   * are the id the database assigns and the clock reading.
   */
  function SendMessage(req: SendRequest, user: CurrentUser, chats: map<ChatId, seq<UserId>>,
                       saveOk: bool, newId: string, now: string): (r: Result<Sent, Status>)
    ensures r == Err(400) <==> req.chatId.None? || req.chatId.value == []
    ensures r == Err(404) <==> req.chatId.Some? && req.chatId.value != [] && IsObjectIdText(req.chatId.value)
                                && (req.chatId.value !in chats || user.id !in chats[req.chatId.value])
    ensures req.chatId.Some? && req.chatId.value != [] && !IsObjectIdText(req.chatId.value) ==> r == Err(500)
    ensures r.Ok? <==> && req.chatId.Some? && req.chatId.value != [] && IsObjectIdText(req.chatId.value)
                       && req.chatId.value in chats && user.id in chats[req.chatId.value]
                       && (req.file.Some? && req.messageType == "file" ==> req.file.value.size <= MaxUploadBytes && saveOk)
    ensures r.Ok? ==> (r.value.fileStored <==> req.file.Some? && req.messageType == "file")
    ensures r.Ok? ==> r.value.event.channel == ChannelFor(req.chatId.value)
  {
    if req.chatId.None? || req.chatId.value == [] then Err(400)
    else
      var chatId := req.chatId.value;
      if !IsObjectIdText(chatId) then Err(500)
      else if chatId !in chats || user.id !in chats[chatId] then Err(404)
      else
        var withFile := req.file.Some? && req.messageType == "file";
        if withFile && req.file.value.size > MaxUploadBytes then Err(500)
        else if withFile && !saveOk then Err(500)
        else
          var m := Message(newId, chatId, user.id, user.username, req.content, req.messageType, now);
          Ok(Sent(m, withFile, Publish(ChannelFor(chatId), NewMessagePub(m, chatId, user.id))))
  }

  /** An over-size upload is answered with 500, the 413 having been wrapped by the broad handler. */
  lemma OversizeUploadIsServerError(req: SendRequest, user: CurrentUser, chats: map<ChatId, seq<UserId>>,
                                    saveOk: bool, newId: string, now: string)
    requires req.chatId.Some? && IsObjectIdText(req.chatId.value)
    requires req.chatId.value in chats && user.id in chats[req.chatId.value]
    requires req.file.Some? && req.messageType == "file" && req.file.value.size > MaxUploadBytes
    ensures SendMessage(req, user, chats, saveOk, newId, now) == Err(500)
  {
  }

  /** A file on a message whose type is not `"file"` is ignored. */
  lemma FileIgnoredUnlessFileType(req: SendRequest, user: CurrentUser, chats: map<ChatId, seq<UserId>>,
                                  saveOk: bool, newId: string, now: string)
    requires req.messageType != "file"
    ensures SendMessage(req, user, chats, saveOk, newId, now)
         == SendMessage(req.(file := None), user, chats, saveOk, newId, now)
  {
  }

  /** The saved message is the request's content, authored by the authenticated user, in the requested chat. */
  lemma SentMessageFields(req: SendRequest, user: CurrentUser, chats: map<ChatId, seq<UserId>>,
                          saveOk: bool, newId: string, now: string)
    requires SendMessage(req, user, chats, saveOk, newId, now).Ok?
    ensures var s := SendMessage(req, user, chats, saveOk, newId, now).value;
      && s.message.chatId == req.chatId.value && s.message.senderId == user.id
      && s.message.senderUsername == user.username && s.message.content == req.content
      && s.message.messageType == req.messageType && s.message.id == newId
      && s.event.data == NewMessagePub(s.message, req.chatId.value, user.id)
      && TypeTag(s.event.data) == NewMessageTag
  {
  }

  // ------------------------------------------------------------ typing and presence

  /** The body of `POST /typing`; the identity fields it carries are not used. */
  datatype TypingRequest = TypingRequest(chatId: ChatId, userId: UserId, username: string, isTyping: bool)

  /** `send_typing_indicator`: the event names the authenticated user, whatever the body claims. */
  function TypingEvent(req: TypingRequest, user: CurrentUser): (e: Publish)
    ensures e.channel == ChannelFor(req.chatId) && TypeTag(e.data) == TypingTag
    ensures e.data.TypingPub? && e.data.typing.userId == user.id && e.data.typing.username == user.username
    ensures e.data.typing.isTyping == req.isTyping
  {
    Publish(ChannelFor(req.chatId), TypingPub(TypingPayload(user.id, user.username, req.isTyping)))
  }

  /** A client cannot speak for another user: the claimed identity has no effect. */
  lemma TypingIgnoresClaimedIdentity(req: TypingRequest, user: CurrentUser, otherId: UserId, otherName: string)
    ensures TypingEvent(req.(userId := otherId, username := otherName), user) == TypingEvent(req, user)
  {
  }

  /** `to_list(100)`: how many of the user's chats are read. */
  const ChatListLimit: nat := 100

  /** The online-status event for one chat. */
  function PresenceEvent(chatId: ChatId, user: CurrentUser, isOnline: bool): Publish
  {
    Publish(ChannelFor(chatId), OnlineStatusPub(PresencePayload(user.id, user.username, isOnline)))
  }

  /**
   * `update_online_status`: one `online_status` event per chat the user
   * belongs to, for the first `ChatListLimit` of them in database order.
   */
  method BroadcastOnlineStatus(userChats: seq<ChatId>, user: CurrentUser, isOnline: bool)
    returns (published: seq<Publish>)
    ensures |published| == Min(|userChats|, ChatListLimit)
    ensures forall k :: 0 <= k < |published| ==>
      && published[k].channel == ChannelFor(userChats[k])
      && published[k].data == OnlineStatusPub(PresencePayload(user.id, user.username, isOnline))
  {
    var chats := userChats[..Min(|userChats|, ChatListLimit)];
    published := [];
    var i := 0;
    while i < |chats|
      invariant i <= |chats| && |published| == i
      invariant forall k :: 0 <= k < i ==> published[k] == PresenceEvent(chats[k], user, isOnline)
    {
      published := published + [PresenceEvent(chats[i], user, isOnline)];
      i := i + 1;
    }
  }
}
