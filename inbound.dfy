/**
 * The three reducers ChatContext.jsx runs on inbound channel events
 * (the `setMessages`, `setTypingUsers` and `setOnlineUsers` updaters) and
 * the switch on the event's type tag that picks one of them.
 */
module Inbound {
  import opened Wrappers
  import opened Protocol

  // ---------------------------------------------------------------- messages

  /** `prev.some((msg) => msg.id === id)` */
  predicate HasId(inbox: seq<Message>, id: string)
  {
    exists i :: 0 <= i < |inbox| && inbox[i].id == id
  }

  /** No two messages in the list share an id. */
  ghost predicate UniqueIds(inbox: seq<Message>)
  {
    forall i, j :: 0 <= i < j < |inbox| ==> inbox[i].id != inbox[j].id
  }

  ghost function Ids(inbox: seq<Message>): set<string>
  {
    set i | 0 <= i < |inbox| :: inbox[i].id
  }

  /**
   * The `new_message` updater: a message whose id is already present is
   * dropped, any other is appended after everything received so far.
   */
  function AppendMessage(inbox: seq<Message>, m: Message): (r: seq<Message>)
    ensures inbox <= r && |r| <= |inbox| + 1
    ensures HasId(r, m.id)
    ensures r == inbox <==> HasId(inbox, m.id)
    ensures r != inbox ==> r[|r| - 1] == m
    ensures UniqueIds(inbox) ==> UniqueIds(r)
  {
    if HasId(inbox, m.id) then inbox
    else
      var r := inbox + [m];
      assert r[|inbox|].id == m.id;
      r
  }

  lemma AppendMessageIdempotent(inbox: seq<Message>, m: Message)
    ensures AppendMessage(AppendMessage(inbox, m), m) == AppendMessage(inbox, m)
  {
  }

  /** The message list after a stream of `new_message` events, in arrival order. */
  function Deliver(inbox: seq<Message>, stream: seq<Message>): seq<Message>
    decreases |stream|
  {
    if stream == [] then inbox else Deliver(AppendMessage(inbox, stream[0]), stream[1..])
  }

  /**
   * Delivering a stream keeps what was there, in place, never creates a
   * duplicate id, and ends up holding exactly the ids seen.
   */
  lemma {:induction false} DeliverKeepsInbox(inbox: seq<Message>, stream: seq<Message>)
    ensures inbox <= Deliver(inbox, stream)
    ensures UniqueIds(inbox) ==> UniqueIds(Deliver(inbox, stream))
    ensures Ids(Deliver(inbox, stream)) == Ids(inbox) + Ids(stream)
    decreases |stream|
  {
    if stream != [] {
      var next := AppendMessage(inbox, stream[0]);
      DeliverKeepsInbox(next, stream[1..]);
      AppendMessageIds(inbox, stream[0]);
      IdsCons(stream);
    }
  }

  lemma AppendMessageIds(inbox: seq<Message>, m: Message)
    ensures Ids(AppendMessage(inbox, m)) == Ids(inbox) + {m.id}
  {
    var next := AppendMessage(inbox, m);
    if HasId(inbox, m.id) {
      var i :| 0 <= i < |inbox| && inbox[i].id == m.id;
      assert inbox[i].id in Ids(inbox);
    } else {
      assert next == inbox + [m];
      assert next[|inbox|].id == m.id;
      forall x | x in Ids(next) ensures x in Ids(inbox) + {m.id} {
        var k :| 0 <= k < |next| && next[k].id == x;
        if k < |inbox| { assert inbox[k].id == x; }
      }
    }
  }

  lemma IdsCons(stream: seq<Message>)
    requires stream != []
    ensures Ids(stream) == {stream[0].id} + Ids(stream[1..])
  {
    forall x | x in Ids(stream) ensures x in {stream[0].id} + Ids(stream[1..]) {
      var k :| 0 <= k < |stream| && stream[k].id == x;
      if k > 0 { assert stream[1..][k - 1].id == x; }
    }
    forall x | x in Ids(stream[1..]) ensures x in Ids(stream) {
      var k :| 0 <= k < |stream[1..]| && stream[1..][k].id == x;
      assert stream[k + 1].id == x;
    }
    assert stream[0].id in Ids(stream);
  }

  /** A stream whose ids are all present already changes nothing. */
  lemma {:induction false} DeliverKnown(inbox: seq<Message>, stream: seq<Message>)
    requires forall k :: 0 <= k < |stream| ==> HasId(inbox, stream[k].id)
    ensures Deliver(inbox, stream) == inbox
    decreases |stream|
  {
    if stream != [] {
      assert HasId(inbox, stream[0].id);
      DeliverKnown(inbox, stream[1..]);
    }
  }

  /** Replaying a stream (a reconnect redelivering the same events) has no further effect. */
  lemma DeliverIdempotent(inbox: seq<Message>, stream: seq<Message>)
    ensures Deliver(Deliver(inbox, stream), stream) == Deliver(inbox, stream)
  {
    var once := Deliver(inbox, stream);
    DeliverKeepsInbox(inbox, stream);
    forall k | 0 <= k < |stream| ensures HasId(once, stream[k].id) {
      assert stream[k].id in Ids(stream);
      assert stream[k].id in Ids(once);
      var i :| 0 <= i < |once| && once[i].id == stream[k].id;
    }
    DeliverKnown(once, stream);
  }

  // ------------------------------------------------------------ typing users

  /** `prev.filter((u) => u.user_id !== userId)` */
  function WithoutUser(entries: seq<TypingPayload>, userId: UserId): (r: seq<TypingPayload>)
    ensures |r| <= |entries|
    ensures forall i :: 0 <= i < |r| ==> r[i].userId != userId
    ensures forall e :: e in r <==> e in entries && e.userId != userId
    decreases |entries|
  {
    if entries == [] then []
    else if entries[0].userId == userId then WithoutUser(entries[1..], userId)
    else [entries[0]] + WithoutUser(entries[1..], userId)
  }

  /** Every user appears at most once in the typing list. */
  ghost predicate OneEntryPerUser(entries: seq<TypingPayload>)
  {
    forall i, j :: 0 <= i < j < |entries| ==> entries[i].userId != entries[j].userId
  }

  lemma OneEntryPerUserTail(entries: seq<TypingPayload>)
    requires entries != [] && OneEntryPerUser(entries)
    ensures OneEntryPerUser(entries[1..])
  {
    var tail := entries[1..];
    forall i, j | 0 <= i < j < |tail| ensures tail[i].userId != tail[j].userId {
      assert tail[i] == entries[i + 1] && tail[j] == entries[j + 1];
    }
  }

  lemma {:induction false} WithoutUserKeepsOnePerUser(entries: seq<TypingPayload>, userId: UserId)
    requires OneEntryPerUser(entries)
    ensures OneEntryPerUser(WithoutUser(entries, userId))
    decreases |entries|
  {
    if entries != [] {
      var tail := entries[1..];
      OneEntryPerUserTail(entries);
      WithoutUserKeepsOnePerUser(tail, userId);
      if entries[0].userId != userId {
        var rest := WithoutUser(tail, userId);
        forall e | e in rest ensures e.userId != entries[0].userId {
          assert e in tail;
          var k :| 0 <= k < |tail| && tail[k] == e;
          assert entries[k + 1] == e;
        }
        var r := [entries[0]] + rest;
        forall i, j | 0 <= i < j < |r| ensures r[i].userId != r[j].userId {
          if i == 0 { assert r[j] == rest[j - 1] && r[j] in rest; }
          else { assert r[i] == rest[i - 1] && r[j] == rest[j - 1]; }
        }
      }
    }
  }

  /** A user who is absent is unaffected by removal. */
  lemma {:induction false} WithoutAbsentUser(entries: seq<TypingPayload>, userId: UserId)
    requires forall i :: 0 <= i < |entries| ==> entries[i].userId != userId
    ensures WithoutUser(entries, userId) == entries
    decreases |entries|
  {
    if entries != [] {
      WithoutAbsentUser(entries[1..], userId);
    }
  }

  /** Expiries of two users commute: the list does not depend on which timer fires first. */
  lemma {:induction false} WithoutUserCommutes(entries: seq<TypingPayload>, a: UserId, b: UserId)
    ensures WithoutUser(WithoutUser(entries, a), b) == WithoutUser(WithoutUser(entries, b), a)
    decreases |entries|
  {
    if entries != [] {
      WithoutUserCommutes(entries[1..], a, b);
    }
  }

  /**
   * Removal filters each part of a list on its own, so the surviving
   * entries keep their order: with `WithoutAbsentUser`, the result is the
   * subsequence of the entries of the other users.
   */
  lemma {:induction false} WithoutUserAppend(a: seq<TypingPayload>, b: seq<TypingPayload>, userId: UserId)
    ensures WithoutUser(a + b, userId) == WithoutUser(a, userId) + WithoutUser(b, userId)
    decreases |a|
  {
    if a != [] {
      assert (a + b)[1..] == a[1..] + b;
      WithoutUserAppend(a[1..], b, userId);
    } else {
      assert a + b == b;
    }
  }

  /**
   * The `typing_indicator` updater: every earlier entry of that user goes,
   * and the event itself is appended iff it says the user is typing.
   */
  function ApplyTyping(entries: seq<TypingPayload>, event: TypingPayload): (r: seq<TypingPayload>)
    ensures event.isTyping ==> |r| > 0 && r[|r| - 1] == event
    ensures forall e :: e in r && e.userId == event.userId ==> event.isTyping && e == event
    ensures forall e: TypingPayload :: e.userId != event.userId ==> (e in r <==> e in entries)
  {
    WithoutUser(entries, event.userId) + (if event.isTyping then [event] else [])
  }

  lemma ApplyTypingKeepsOnePerUser(entries: seq<TypingPayload>, event: TypingPayload)
    requires OneEntryPerUser(entries)
    ensures OneEntryPerUser(ApplyTyping(entries, event))
  {
    WithoutUserKeepsOnePerUser(entries, event.userId);
  }

  /**
   * The event leaves every other user's entries exactly as they were, in
   * their order: removing the event's user from the list before and after
   * gives the same list.
   */
  lemma ApplyTypingLeavesOthers(entries: seq<TypingPayload>, event: TypingPayload)
    ensures WithoutUser(ApplyTyping(entries, event), event.userId) == WithoutUser(entries, event.userId)
  {
    var rest := WithoutUser(entries, event.userId);
    var added := if event.isTyping then [event] else [];
    WithoutUserAppend(rest, added, event.userId);
    WithoutAbsentUser(rest, event.userId);
    assert WithoutUser(added, event.userId) == [] by {
      if event.isTyping {
        assert added[1..] == [];
      }
    }
    assert rest + [] == rest;
  }

  /** The 3000 ms expiry: drops every entry of the user, with no check of which event scheduled it. */
  function ExpireTyping(entries: seq<TypingPayload>, userId: UserId): (r: seq<TypingPayload>)
    ensures forall e :: e in r <==> e in entries && e.userId != userId
  {
    WithoutUser(entries, userId)
  }

  /** An expiry has the same effect as that user's "stopped typing" event. */
  lemma ExpiryIsStop(entries: seq<TypingPayload>, userId: UserId, username: string)
    ensures ExpireTyping(entries, userId) == ApplyTyping(entries, TypingPayload(userId, username, false))
  {
  }

  /**
   * The expiry timer of an earlier event removes an entry refreshed since:
   * a user who types again two seconds later vanishes from the list when
   * the first event's timer fires.
   */
  lemma StaleExpiryDropsRefreshedEntry(entries: seq<TypingPayload>, first: TypingPayload, second: TypingPayload)
    requires first.isTyping && second.isTyping && first.userId == second.userId
    ensures second in ApplyTyping(ApplyTyping(entries, first), second)
    ensures second !in ExpireTyping(ApplyTyping(ApplyTyping(entries, first), second), first.userId)
  {
  }

  // ------------------------------------------------------------ online users

  /** The `online_status` updater: add the user when online, remove when offline. */
  function ApplyPresence(online: set<UserId>, event: PresencePayload): (r: set<UserId>)
    ensures event.userId in r <==> event.isOnline
    ensures forall u :: u != event.userId ==> (u in r <==> u in online)
  {
    if event.isOnline then online + {event.userId} else online - {event.userId}
  }

  lemma ApplyPresenceIdempotent(online: set<UserId>, event: PresencePayload)
    ensures ApplyPresence(ApplyPresence(online, event), event) == ApplyPresence(online, event)
  {
  }

  function ApplyAllPresence(online: set<UserId>, events: seq<PresencePayload>): set<UserId>
    decreases |events|
  {
    if events == [] then online else ApplyAllPresence(ApplyPresence(online, events[0]), events[1..])
  }

  /** The `is_online` of the last event about `u` in the stream, if any. */
  function LastStatus(events: seq<PresencePayload>, u: UserId): Option<bool>
    decreases |events|
  {
    if events == [] then None
    else if events[|events| - 1].userId == u then Some(events[|events| - 1].isOnline)
    else LastStatus(events[..|events| - 1], u)
  }

  lemma {:induction false} ApplyAllPresenceSnoc(online: set<UserId>, events: seq<PresencePayload>, e: PresencePayload)
    ensures ApplyAllPresence(online, events + [e]) == ApplyPresence(ApplyAllPresence(online, events), e)
    decreases |events|
  {
    if events == [] {
      assert events + [e] == [e];
      assert ([e])[1..] == [];
    } else {
      assert (events + [e])[0] == events[0];
      assert (events + [e])[1..] == events[1..] + [e];
      ApplyAllPresenceSnoc(ApplyPresence(online, events[0]), events[1..], e);
    }
  }

  /**
   * A user is online after a stream of presence events iff the last event
   * about that user said online, or there was none and the user was online.
   */
  lemma {:induction false} PresenceFollowsLastEvent(online: set<UserId>, events: seq<PresencePayload>, u: UserId)
    ensures u in ApplyAllPresence(online, events) <==>
      match LastStatus(events, u)
      case Some(isOnline) => isOnline
      case None => u in online
    decreases |events|
  {
    if events != [] {
      var n := |events| - 1;
      assert events == events[..n] + [events[n]];
      ApplyAllPresenceSnoc(online, events[..n], events[n]);
      PresenceFollowsLastEvent(online, events[..n], u);
    }
  }

  // ------------------------------------------------------------------ router

  /** The client-side state the three reducers maintain. */
  datatype Feeds = Feeds(messages: seq<Message>, typing: seq<TypingPayload>, online: set<UserId>)

  datatype Sink = ToInbox | ToTyping | ToPresence | Dropped

  /** The `switch (data.type)` of the subscription's `onMessage` callback. */
  function RouteTag(tag: string): (s: Sink)
    ensures s == Dropped <==> tag !in {NewMessageTag, TypingTag, OnlineStatusTag}
  {
    if tag == NewMessageTag then ToInbox
    else if tag == TypingTag then ToTyping
    else if tag == OnlineStatusTag then ToPresence
    else Dropped
  }

  /** Every event the backend publishes is routed to the reducer made for it. */
  lemma RouteMatchesPublisher(p: Publication)
    ensures p.NewMessagePub? ==> RouteTag(TypeTag(p)) == ToInbox
    ensures p.TypingPub? ==> RouteTag(TypeTag(p)) == ToTyping
    ensures p.OnlineStatusPub? ==> RouteTag(TypeTag(p)) == ToPresence
  {
  }

  /**
   * One inbound event applied to the client state: exactly the feed its tag
   * selects changes, by that feed's reducer; other tags change nothing.
   */
  function Dispatch(f: Feeds, p: Publication): (r: Feeds)
    ensures RouteTag(TypeTag(p)) != ToInbox ==> r.messages == f.messages
    ensures RouteTag(TypeTag(p)) != ToTyping ==> r.typing == f.typing
    ensures RouteTag(TypeTag(p)) != ToPresence ==> r.online == f.online
    ensures p.NewMessagePub? ==> r.messages == AppendMessage(f.messages, p.message)
    ensures p.TypingPub? ==> r.typing == ApplyTyping(f.typing, p.typing)
    ensures p.OnlineStatusPub? ==> r.online == ApplyPresence(f.online, p.presence)
  {
    match RouteTag(TypeTag(p))
    case ToInbox =>
      if p.NewMessagePub? then f.(messages := AppendMessage(f.messages, p.message)) else f
    case ToTyping =>
      if p.TypingPub? then f.(typing := ApplyTyping(f.typing, p.typing)) else f
    case ToPresence =>
      if p.OnlineStatusPub? then f.(online := ApplyPresence(f.online, p.presence)) else f
    case Dropped => f
  }
}
