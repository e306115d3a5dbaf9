/**
 * The chat room page, pages/ChatRoom.jsx: the date headers woven into the
 * message list, the message composer (keystroke typing debounce, send and
 * file guards) and the title of a direct conversation.
 */
module ChatRoom {
  import opened Wrappers
  import opened Protocol

  // ------------------------------------------------------------ date headers

  /** One entry of the rendered list: a date header or a message. */
  datatype Item = DateHeader(date: string, timestamp: string) | MessageItem(data: Message)

  /**
   * The items message `i` contributes: a header carrying its day key and its
   * own `created_at` when it is the first message or its day differs from
   * the previous message's, then the message itself.
   */
  function Block(ms: seq<Message>, i: nat, dayOf: string -> string): (b: seq<Item>)
    requires i < |ms|
    ensures 1 <= |b| <= 2 && b[|b| - 1] == MessageItem(ms[i])
  {
    (if i == 0 || dayOf(ms[i - 1].createdAt) != dayOf(ms[i].createdAt)
     then [DateHeader(dayOf(ms[i].createdAt), ms[i].createdAt)]
     else [])
    + [MessageItem(ms[i])]
  }

  /** The grouped list, message by message; `dayOf` is the date key (`toDateString`). */
  function Grouped(ms: seq<Message>, dayOf: string -> string): (g: seq<Item>)
    ensures g == [] <==> ms == []
    decreases |ms|
  {
    if ms == [] then [] else Grouped(ms[..|ms| - 1], dayOf) + Block(ms, |ms| - 1, dayOf)
  }

  /** Growing the prefix by one message appends that message's block. */
  lemma GroupedSnoc(ms: seq<Message>, i: nat, dayOf: string -> string)
    requires i < |ms|
    ensures Grouped(ms[..i + 1], dayOf) == Grouped(ms[..i], dayOf) + Block(ms, i, dayOf)
  {
    assert ms[..i + 1][..i] == ms[..i];
    assert Block(ms[..i + 1], i, dayOf) == Block(ms, i, dayOf);
  }

  /** `groupMessagesByDate`: one pass over the messages, remembering the last day key seen. */
  method GroupMessagesByDate(messages: seq<Message>, dayOf: string -> string) returns (grouped: seq<Item>)
    ensures grouped == Grouped(messages, dayOf)
  {
    if |messages| == 0 {
      return [];
    }
    grouped := [];
    var currentDate: Option<string> := None;
    var i := 0;
    while i < |messages|
      invariant i <= |messages|
      invariant grouped == Grouped(messages[..i], dayOf)
      invariant currentDate == if i == 0 then None else Some(dayOf(messages[i - 1].createdAt))
    {
      var messageDate := dayOf(messages[i].createdAt);
      ghost var before := grouped;
      if currentDate != Some(messageDate) {
        grouped := grouped + [DateHeader(messageDate, messages[i].createdAt)];
        currentDate := Some(messageDate);
        assert Block(messages, i, dayOf) == [DateHeader(messageDate, messages[i].createdAt), MessageItem(messages[i])];
      } else {
        assert Block(messages, i, dayOf) == [MessageItem(messages[i])];
      }
      grouped := grouped + [MessageItem(messages[i])];
      assert grouped == before + Block(messages, i, dayOf);
      GroupedSnoc(messages, i, dayOf);
      i := i + 1;
    }
    assert messages[..i] == messages;
  }

  /** The messages of a rendered list, in order. */
  function MessagesOf(items: seq<Item>): (ms: seq<Message>)
    ensures |ms| <= |items|
  {
    if items == [] then []
    else (if items[0].MessageItem? then [items[0].data] else []) + MessagesOf(items[1..])
  }

  lemma {:induction false} MessagesOfConcat(a: seq<Item>, b: seq<Item>)
    ensures MessagesOf(a + b) == MessagesOf(a) + MessagesOf(b)
    decreases |a|
  {
    if a == [] {
      assert a + b == b;
    } else {
      assert (a + b)[0] == a[0] && (a + b)[1..] == a[1..] + b;
      MessagesOfConcat(a[1..], b);
    }
  }

  /** A block holds exactly its message. */
  lemma MessagesOfBlock(ms: seq<Message>, i: nat, dayOf: string -> string)
    requires i < |ms|
    ensures MessagesOf(Block(ms, i, dayOf)) == [ms[i]]
  {
    var b := Block(ms, i, dayOf);
    if |b| == 2 {
      assert b[1..] == [MessageItem(ms[i])];
    }
  }

  /** The message items are exactly the input messages, in the same order. */
  lemma {:induction false} GroupedKeepsMessages(ms: seq<Message>, dayOf: string -> string)
    ensures MessagesOf(Grouped(ms, dayOf)) == ms
    decreases |ms|
  {
    if ms != [] {
      var n := |ms| - 1;
      GroupedKeepsMessages(ms[..n], dayOf);
      MessagesOfConcat(Grouped(ms[..n], dayOf), Block(ms, n, dayOf));
      MessagesOfBlock(ms, n, dayOf);
      assert ms[..n] + [ms[n]] == ms;
    }
  }

  /** Each header is followed by a message of its day and carries that message's timestamp. */
  ghost predicate HeadersIntroduceTheirDay(g: seq<Item>, dayOf: string -> string)
  {
    forall k :: 0 <= k < |g| && g[k].DateHeader? ==>
      k + 1 < |g| && g[k + 1].MessageItem?
      && g[k].date == dayOf(g[k + 1].data.createdAt) && g[k].timestamp == g[k + 1].data.createdAt
  }

  /** A header after the start follows a message of another day. */
  ghost predicate HeadersMarkDayChanges(g: seq<Item>, dayOf: string -> string)
  {
    forall k :: 0 < k < |g| && g[k].DateHeader? ==>
      g[k - 1].MessageItem? && dayOf(g[k - 1].data.createdAt) != g[k].date
  }

  /** Two adjacent messages share a day. */
  ghost predicate AdjacentMessagesShareDay(g: seq<Item>, dayOf: string -> string)
  {
    forall k :: 0 < k < |g| && g[k].MessageItem? && g[k - 1].MessageItem? ==>
      dayOf(g[k - 1].data.createdAt) == dayOf(g[k].data.createdAt)
  }

  /**
   * The shape of a grouped list, stated on the output alone: it opens with a
   * header, and headers stand exactly where the day changes.
   */
  ghost predicate WellGrouped(g: seq<Item>, dayOf: string -> string)
  {
    && (g != [] ==> g[0].DateHeader?)
    && HeadersIntroduceTheirDay(g, dayOf)
    && HeadersMarkDayChanges(g, dayOf)
    && AdjacentMessagesShareDay(g, dayOf)
  }

  /** A non-empty grouped list ends with its last message. */
  lemma GroupedEndsWithLast(ms: seq<Message>, dayOf: string -> string)
    requires ms != []
    ensures var g := Grouped(ms, dayOf); g[|g| - 1] == MessageItem(ms[|ms| - 1])
  {
    var n := |ms| - 1;
    assert Grouped(ms, dayOf) == Grouped(ms[..n], dayOf) + Block(ms, n, dayOf);
  }

  lemma IntroduceAppend(g0: seq<Item>, b: seq<Item>, prev: Message, m: Message, dayOf: string -> string)
    requires HeadersIntroduceTheirDay(g0, dayOf) && g0 != [] && g0[|g0| - 1] == MessageItem(prev)
    requires b == [MessageItem(m)] || b == [DateHeader(dayOf(m.createdAt), m.createdAt), MessageItem(m)]
    ensures HeadersIntroduceTheirDay(g0 + b, dayOf)
  {
    var g := g0 + b;
    forall k | 0 <= k < |g| && g[k].DateHeader?
      ensures k + 1 < |g| && g[k + 1].MessageItem?
      ensures g[k].date == dayOf(g[k + 1].data.createdAt) && g[k].timestamp == g[k + 1].data.createdAt
    {
      if k < |g0| {
        assert g[k] == g0[k] && g[k + 1] == g0[k + 1];
      }
    }
  }

  lemma MarkAppend(g0: seq<Item>, b: seq<Item>, prev: Message, m: Message, dayOf: string -> string)
    requires HeadersMarkDayChanges(g0, dayOf) && g0 != [] && g0[|g0| - 1] == MessageItem(prev)
    requires b == [MessageItem(m)] ||
             (b == [DateHeader(dayOf(m.createdAt), m.createdAt), MessageItem(m)] && dayOf(prev.createdAt) != dayOf(m.createdAt))
    ensures HeadersMarkDayChanges(g0 + b, dayOf)
  {
    var g := g0 + b;
    forall k | 0 < k < |g| && g[k].DateHeader?
      ensures g[k - 1].MessageItem? && dayOf(g[k - 1].data.createdAt) != g[k].date
    {
      if k < |g0| {
        assert g[k] == g0[k] && g[k - 1] == g0[k - 1];
      }
    }
  }

  lemma ShareAppend(g0: seq<Item>, b: seq<Item>, prev: Message, m: Message, dayOf: string -> string)
    requires AdjacentMessagesShareDay(g0, dayOf) && g0 != [] && g0[|g0| - 1] == MessageItem(prev)
    requires (b == [MessageItem(m)] && dayOf(prev.createdAt) == dayOf(m.createdAt)) ||
             b == [DateHeader(dayOf(m.createdAt), m.createdAt), MessageItem(m)]
    ensures AdjacentMessagesShareDay(g0 + b, dayOf)
  {
    var g := g0 + b;
    forall k | 0 < k < |g| && g[k].MessageItem? && g[k - 1].MessageItem?
      ensures dayOf(g[k - 1].data.createdAt) == dayOf(g[k].data.createdAt)
    {
      if k < |g0| {
        assert g[k] == g0[k] && g[k - 1] == g0[k - 1];
      }
    }
  }

  /** Headers sit exactly where the day changes, and the list opens with one. */
  lemma {:induction false} GroupedIsWellGrouped(ms: seq<Message>, dayOf: string -> string)
    ensures WellGrouped(Grouped(ms, dayOf), dayOf)
    decreases |ms|
  {
    if ms != [] {
      var n := |ms| - 1;
      var g0 := Grouped(ms[..n], dayOf);
      var b := Block(ms, n, dayOf);
      assert Grouped(ms, dayOf) == g0 + b;
      if n == 0 {
        assert g0 + b == [DateHeader(dayOf(ms[0].createdAt), ms[0].createdAt), MessageItem(ms[0])];
      } else {
        GroupedIsWellGrouped(ms[..n], dayOf);
        GroupedEndsWithLast(ms[..n], dayOf);
        var prev := ms[n - 1];
        assert ms[..n][n - 1] == prev;
        IntroduceAppend(g0, b, prev, ms[n], dayOf);
        MarkAppend(g0, b, prev, ms[n], dayOf);
        ShareAppend(g0, b, prev, ms[n], dayOf);
        assert (g0 + b)[0] == g0[0];
      }
    }
  }

  // ------------------------------------------------------------ whitespace

  /** The characters JavaScript's `String.prototype.trim` removes. */
  predicate IsJsSpace(c: char)
  {
    c in {'\t', '\n', '\U{000B}', '\U{000C}', '\r', ' ', '\U{00A0}', '\U{1680}',
          '\U{2000}', '\U{2001}', '\U{2002}', '\U{2003}', '\U{2004}', '\U{2005}', '\U{2006}',
          '\U{2007}', '\U{2008}', '\U{2009}', '\U{200A}', '\U{2028}', '\U{2029}', '\U{202F}',
          '\U{205F}', '\U{3000}', '\U{FEFF}'}
  }

  /** Nothing but whitespace. */
  predicate Blank(s: string)
  {
    forall k :: 0 <= k < |s| ==> IsJsSpace(s[k])
  }

  function TrimStart(s: string): string
    decreases |s|
  {
    if s != [] && IsJsSpace(s[0]) then TrimStart(s[1..]) else s
  }

  function TrimEnd(s: string): string
    decreases |s|
  {
    if s != [] && IsJsSpace(s[|s| - 1]) then TrimEnd(s[..|s| - 1]) else s
  }

  /** `s.trim()` */
  function Trim(s: string): string
  {
    TrimEnd(TrimStart(s))
  }

  /** Trimming the start drops a whitespace prefix and stops at the first other character. */
  lemma {:induction false} TrimStartDropsSpace(s: string)
    ensures var r := TrimStart(s);
      && |r| <= |s| && r == s[|s| - |r|..]
      && (r == [] || !IsJsSpace(r[0]))
      && forall k :: 0 <= k < |s| - |r| ==> IsJsSpace(s[k])
    decreases |s|
  {
    if s != [] && IsJsSpace(s[0]) {
      TrimStartDropsSpace(s[1..]);
    }
  }

  /** Trimming the end drops a whitespace suffix and stops at the last other character. */
  lemma {:induction false} TrimEndDropsSpace(s: string)
    ensures var r := TrimEnd(s);
      && |r| <= |s| && r == s[..|r|]
      && (r == [] || !IsJsSpace(r[|r| - 1]))
      && forall k :: |r| <= k < |s| ==> IsJsSpace(s[k])
    decreases |s|
  {
    if s != [] && IsJsSpace(s[|s| - 1]) {
      TrimEndDropsSpace(s[..|s| - 1]);
    }
  }

  /** `!s.trim()` holds exactly for the blank strings. */
  lemma TrimEmptyIffBlank(s: string)
    ensures Trim(s) == [] <==> Blank(s)
  {
    var t := TrimStart(s);
    TrimStartDropsSpace(s);
    TrimEndDropsSpace(t);
    if Trim(s) == [] {
      if |t| > 0 {
        assert false;
      }
    } else {
      var r := Trim(s);
      assert t[0] == r[0];
      assert s[|s| - |t|] == t[0];
    }
  }

  // ------------------------------------------------------------ composer

  /** A file picked in the browser: its name, MIME type and size in bytes. */
  datatype FileInfo = FileInfo(name: string, mimeType: string, size: nat)

  /** What the composer hands to the send functions of the chat context. */
  datatype Request =
    | TextRequest(content: string)
    | FileRequest(file: FileInfo, caption: Option<string>)

  /** The keystroke debounce delay. */
  const TypingDebounceMs: nat := 1000

  /** No `true` indicator is sent twice in a row: only the start of typing announces it. */
  ghost predicate TrueOnlyOnTransition(indicators: seq<bool>)
  {
    forall k :: 0 < k < |indicators| && indicators[k] ==> !indicators[k - 1]
  }

  /**
   * The composer state of the chat room: the draft, the typing flag, the
   * pending debounce timer (by the keystroke that armed it), the selected
   * file, and the two outputs, the typing indicators and the send requests
   * issued, in order.
   */
  class Composer {
    var draft: string
    var isTyping: bool
    var keystrokes: nat
    var typingTimer: Option<nat>
    var selectedFile: Option<FileInfo>
    var indicators: seq<bool>
    var requests: seq<Request>

    /**
     * Typing is on exactly while a debounce timer is pending, that timer is
     * the one armed by the latest keystroke, and the last indicator sent
     * tells the current typing state.
     */
    ghost predicate Valid()
      reads this
    {
      && (isTyping <==> typingTimer.Some?)
      && (typingTimer.Some? ==> typingTimer.value == keystrokes)
      && (isTyping ==> |indicators| > 0)
      && (|indicators| > 0 ==> indicators[|indicators| - 1] == isTyping)
      && TrueOnlyOnTransition(indicators)
    }

    constructor ()
      ensures Valid()
      ensures draft == [] && !isTyping && keystrokes == 0 && typingTimer == None
      ensures selectedFile == None && indicators == [] && requests == []
    {
      draft, isTyping, keystrokes, typingTimer := [], false, 0, None;
      selectedFile, indicators, requests := None, [], [];
    }

    /**
     * `handleInputChange`: store the draft, announce typing only when it
     * starts, and replace any pending timer by a fresh one.
     */
    method InputChange(value: string)
      requires Valid()
      modifies this
      ensures Valid()
      ensures draft == value && isTyping
      ensures keystrokes == old(keystrokes) + 1 && typingTimer == Some(keystrokes)
      ensures indicators == old(indicators) + (if old(isTyping) then [] else [true])
      ensures selectedFile == old(selectedFile) && requests == old(requests)
    {
      draft := value;
      if !isTyping {
        isTyping := true;
        indicators := indicators + [true];
      }
      keystrokes := keystrokes + 1;
      typingTimer := Some(keystrokes);
    }

    /** The debounce timer fires: typing stops and `false` is sent. */
    method FireTypingTimer()
      requires Valid() && typingTimer.Some?
      modifies this
      ensures Valid()
      ensures !isTyping && typingTimer == None && indicators == old(indicators) + [false]
      ensures draft == old(draft) && keystrokes == old(keystrokes)
      ensures selectedFile == old(selectedFile) && requests == old(requests)
    {
      isTyping := false;
      typingTimer := None;
      indicators := indicators + [false];
    }

    /**
     * `handleFileSelect`: no file, or one over the upload cap, leaves the
     * selection as it was; otherwise the file becomes the selection.
     */
    method SelectFile(file: Option<FileInfo>) returns (accepted: bool)
      requires Valid()
      modifies this
      ensures Valid()
      ensures accepted <==> file.Some? && file.value.size <= MaxUploadBytes
      ensures selectedFile == if accepted then file else old(selectedFile)
      ensures draft == old(draft) && isTyping == old(isTyping) && keystrokes == old(keystrokes)
      ensures typingTimer == old(typingTimer) && indicators == old(indicators) && requests == old(requests)
    {
      if file.None? {
        return false;
      }
      if file.value.size > MaxUploadBytes {
        return false;
      }
      selectedFile := file;
      accepted := true;
    }

    /** `removeSelectedFile` */
    method RemoveSelectedFile()
      requires Valid()
      modifies this
      ensures Valid()
      ensures selectedFile == None
      ensures draft == old(draft) && isTyping == old(isTyping) && keystrokes == old(keystrokes)
      ensures typingTimer == old(typingTimer) && indicators == old(indicators) && requests == old(requests)
    {
      selectedFile := None;
    }

    /**
     * `handleSendFile` through `sendFileMessage`, with `sendOk` saying
     * whether the upload request succeeded: one file request whose caption
     * is the draft when it is not blank; on success the selection and the
     * draft are cleared. The typing state is not touched.
     */
    method SendFile(sendOk: bool)
      requires Valid() && selectedFile.Some?
      modifies this
      ensures Valid()
      ensures requests == old(requests) + [FileRequest(old(selectedFile).value,
                                                       if Trim(old(draft)) == [] then None else Some(old(draft)))]
      ensures selectedFile == (if sendOk then None else old(selectedFile))
      ensures draft == (if sendOk then [] else old(draft))
      ensures isTyping == old(isTyping) && typingTimer == old(typingTimer)
      ensures indicators == old(indicators) && keystrokes == old(keystrokes)
    {
      var caption := if Trim(draft) == [] then None else Some(draft);
      requests := requests + [FileRequest(selectedFile.value, caption)];
      if sendOk {
        selectedFile := None;
        draft := [];
      }
    }

    /**
     * `handleSendMessage`, with `sendOk` saying whether the send request
     * succeeded. A selected file always takes the file path. Otherwise a
     * blank draft sends nothing; a non-blank one stops typing (sending
     * `false`, cancelling the timer), is sent as it is, untrimmed, and is
     * cleared on success.
     */
    method Submit(sendOk: bool)
      requires Valid()
      modifies this
      ensures Valid()
      ensures keystrokes == old(keystrokes)
      ensures old(selectedFile).Some? ==>
        && requests == old(requests) + [FileRequest(old(selectedFile).value,
                                                    if Trim(old(draft)) == [] then None else Some(old(draft)))]
        && selectedFile == (if sendOk then None else old(selectedFile))
        && draft == (if sendOk then [] else old(draft))
        && isTyping == old(isTyping) && typingTimer == old(typingTimer) && indicators == old(indicators)
      ensures old(selectedFile).None? && Trim(old(draft)) == [] ==>
        && requests == old(requests) && draft == old(draft) && selectedFile == old(selectedFile)
        && isTyping == old(isTyping) && typingTimer == old(typingTimer) && indicators == old(indicators)
      ensures old(selectedFile).None? && Trim(old(draft)) != [] ==>
        && requests == old(requests) + [TextRequest(old(draft))]
        && draft == (if sendOk then [] else old(draft))
        && selectedFile == None
        && !isTyping && typingTimer == None && indicators == old(indicators) + [false]
    {
      if selectedFile.Some? {
        SendFile(sendOk);
        return;
      }
      if Trim(draft) == [] {
        return;
      }
      isTyping := false;
      indicators := indicators + [false];
      typingTimer := None;
      requests := requests + [TextRequest(draft)];
      if sendOk {
        draft := [];
      }
    }
  }

  // ------------------------------------------------------------ direct-chat title

  /** `pat` occurs in `s` at position `k`. */
  predicate OccursAt(s: string, pat: string, k: nat)
  {
    k + |pat| <= |s| && s[k..k + |pat|] == pat
  }

  /** The first occurrence of `pat` in `s` at or after `from` (`indexOf`). */
  function IndexFrom(s: string, pat: string, from: nat): (r: Option<nat>)
    requires from <= |s|
    ensures r.Some? ==> from <= r.value && OccursAt(s, pat, r.value)
    ensures r.Some? ==> forall k :: from <= k < r.value ==> !OccursAt(s, pat, k)
    ensures r.None? ==> forall k :: from <= k ==> !OccursAt(s, pat, k)
    decreases |s| - from
  {
    if from + |pat| > |s| then None
    else if s[from..from + |pat|] == pat then Some(from)
    else IndexFrom(s, pat, from + 1)
  }

  /** `s.includes(pat)` */
  predicate Contains(s: string, pat: string)
  {
    IndexFrom(s, pat, 0).Some?
  }

  /** `label.split("||||")[1]`: the text between the first separator and the next, if any. */
  function SecondField(entry: string): (r: Option<string>)
    ensures r.Some? ==> Contains(entry, LabelSeparator)
  {
    match IndexFrom(entry, LabelSeparator, 0)
    case None => None
    case Some(i) =>
      var rest := entry[i + |LabelSeparator|..];
      match IndexFrom(rest, LabelSeparator, 0)
      case None => Some(rest)
      case Some(j) => Some(rest[..j])
  }

  /** A label decodes back to its username when the id has no `|` and the name no separator. */
  lemma SecondFieldOfLabel(participantId: UserId, username: string)
    requires '|' !in participantId && !Contains(username, LabelSeparator)
    ensures SecondField(Label(participantId, username)) == Some(username)
  {
    var s := Label(participantId, username);
    assert OccursAt(s, LabelSeparator, |participantId|);
    forall k | 0 <= k < |participantId| ensures !OccursAt(s, LabelSeparator, k) {
      assert s[k] == participantId[k];
      if k + |LabelSeparator| <= |s| {
        assert s[k..k + |LabelSeparator|][0] == s[k];
      }
    }
    assert IndexFrom(s, LabelSeparator, 0) == Some(|participantId|);
    assert s[|participantId| + |LabelSeparator|..] == username;
  }

  /** A text without a `|` never holds the separator. */
  lemma NoBarNoSeparator(s: string)
    requires '|' !in s
    ensures !Contains(s, LabelSeparator)
  {
    forall k: nat ensures !OccursAt(s, LabelSeparator, k) {
      if k + |LabelSeparator| <= |s| {
        assert s[k..k + |LabelSeparator|][0] == s[k];
      }
    }
  }

  /**
   * The string searched for in each label: the logged-in username when it is
   * non-empty, else the last message's sender, else JavaScript's rendering
   * of a missing value.
   */
  function Needle(loggedIn: Option<string>, lastSender: Option<string>): (n: string)
    ensures loggedIn.Some? && loggedIn.value != [] ==> n == loggedIn.value
  {
    if loggedIn.Some? && loggedIn.value != [] then loggedIn.value
    else if lastSender.Some? then lastSender.value
    else "undefined"
  }

  /** `labels.find((p) => !p.includes(needle))` */
  function FirstWithout(labels: seq<string>, needle: string): (r: Option<string>)
    ensures r.None? <==> forall k :: 0 <= k < |labels| ==> Contains(labels[k], needle)
    ensures r.Some? ==> exists k :: 0 <= k < |labels| && labels[k] == r.value && !Contains(r.value, needle)
                                  && forall j :: 0 <= j < k ==> Contains(labels[j], needle)
  {
    if labels == [] then None
    else if !Contains(labels[0], needle) then Some(labels[0])
    else
      var r := FirstWithout(labels[1..], needle);
      assert forall k :: 1 <= k < |labels| ==> labels[k] == labels[1..][k - 1];
      if r.Some? then
        var k :| 0 <= k < |labels[1..]| && labels[1..][k] == r.value && !Contains(r.value, needle)
                  && forall j :: 0 <= j < k ==> Contains(labels[1..][j], needle);
        assert labels[k + 1] == r.value;
        assert forall j :: 1 <= j < k + 1 ==> labels[j] == labels[1..][j - 1];
        r
      else r
  }

  const UnknownUser: string := "Unknown User"

  /** The title shown for a direct conversation. */
  function DirectTitle(labels: seq<string>, needle: string): (t: string)
    ensures t != []
    ensures (forall k :: 0 <= k < |labels| ==> Contains(labels[k], needle)) ==> t == UnknownUser
  {
    match FirstWithout(labels, needle)
    case None => UnknownUser
    case Some(p) =>
      match SecondField(p)
      case None => UnknownUser
      case Some(name) => if name == [] then UnknownUser else name
  }

  /**
   * The title of a direct conversation names the first participant whose
   * label does not mention the needle, read from that label.
   */
  lemma DirectTitleNamesFirstOther(labels: seq<string>, needle: string, i: nat, participantId: UserId, username: string)
    requires i < |labels| && labels[i] == Label(participantId, username)
    requires !Contains(labels[i], needle) && forall j :: 0 <= j < i ==> Contains(labels[j], needle)
    requires '|' !in participantId && !Contains(username, LabelSeparator) && username != []
    ensures DirectTitle(labels, needle) == username
  {
    var r := FirstWithout(labels, needle);
    var k :| 0 <= k < |labels| && labels[k] == r.value && !Contains(r.value, needle)
              && forall j :: 0 <= j < k ==> Contains(labels[j], needle);
    assert k == i;
    SecondFieldOfLabel(participantId, username);
  }

  /**
   * As written, the match is a substring test on the whole label, so the
   * other participant is skipped whenever their label happens to contain the
   * logged-in username: "ann" talking to "joanna" sees "Unknown User".
   */
  lemma SubstringMatchHidesOtherUser()
    ensures DirectTitle([Label("u1", "ann"), Label("u2", "joanna")], Needle(Some("ann"), None)) == UnknownUser
  {
    var labels := [Label("u1", "ann"), Label("u2", "joanna")];
    assert OccursAt(labels[0], "ann", 6);
    assert OccursAt(labels[1], "ann", 8);
  }

  /**
   * The evidently intended title: the first participant whose decoded
   * username differs from the needle.
   */
  function FirstOtherByName(labels: seq<string>, needle: string): (r: Option<string>)
    ensures r.Some? ==> exists k :: 0 <= k < |labels| && SecondField(labels[k]) == Some(r.value)
                                  && r.value != needle && r.value != []
  {
    if labels == [] then None
    else match SecondField(labels[0])
      case Some(name) =>
        if name != needle && name != [] then Some(name)
        else
          var r := FirstOtherByName(labels[1..], needle);
          if r.Some? then
            var k :| 0 <= k < |labels[1..]| && SecondField(labels[1..][k]) == Some(r.value);
            assert labels[k + 1] == labels[1..][k];
            r
          else r
      case None =>
        var r := FirstOtherByName(labels[1..], needle);
        if r.Some? then
          var k :| 0 <= k < |labels[1..]| && SecondField(labels[1..][k]) == Some(r.value);
          assert labels[k + 1] == labels[1..][k];
          r
        else r
  }

  function DirectTitleExact(labels: seq<string>, needle: string): (t: string)
    ensures t != []
  {
    match FirstOtherByName(labels, needle)
    case None => UnknownUser
    case Some(name) => name
  }

  /** In a two-party conversation the corrected title always names the other participant. */
  lemma DirectTitleExactNamesOther(myId: UserId, me: string, otherId: UserId, other: string)
    requires '|' !in myId && '|' !in otherId
    requires !Contains(me, LabelSeparator) && !Contains(other, LabelSeparator)
    requires me != other && other != []
    ensures DirectTitleExact([Label(myId, me), Label(otherId, other)], me) == other
    ensures DirectTitleExact([Label(otherId, other), Label(myId, me)], me) == other
  {
    SecondFieldOfLabel(myId, me);
    SecondFieldOfLabel(otherId, other);
    var a := [Label(myId, me), Label(otherId, other)];
    assert a[1..] == [Label(otherId, other)];
    assert FirstOtherByName([Label(otherId, other)], me) == Some(other);
  }

  /** The corrected title gets the "ann" and "joanna" conversation right. */
  lemma ExactMatchShowsOtherUser()
    ensures DirectTitleExact([Label("u1", "ann"), Label("u2", "joanna")], Needle(Some("ann"), None)) == "joanna"
  {
    NoBarNoSeparator("ann");
    NoBarNoSeparator("joanna");
    DirectTitleExactNamesOther("u1", "ann", "u2", "joanna");
  }
}
