/**
 * The connection and subscription controller of contexts/ChatContext.jsx:
 * the refs `isInitializing`, `retryCount`, `pendingSubscriptions` and
 * `subscriptions`, the `centrifugoReady` flag, the scheduled timers, and the
 * client state fed by inbound events. Every await and every timer is an
 * explicit step: `TokenFetched` and `LinkSettled` resume the two awaits of
 * `attemptCentrifugoInitialization`, the `Fire...` methods run a timer.
 */
module Controller {
  import opened Wrappers
  import opened Protocol
  import Backoff
  import Inbound
  import opened Service

  /** Where the single connection attempt in flight stands. */
  datatype Phase = Idle | FetchingToken | AwaitingLink

  /** A pending `setTimeout` of `scheduleSubscriptionRetry`. */
  datatype SubscriptionRetryTimer = SubscriptionRetryTimer(chatId: ChatId, attempt: nat, delay: nat)

  /** How long a typing entry lives before its expiry timer fires. */
  const TypingExpiryMs: nat := 3000

  datatype ControllerState = ControllerState(
    isInitializing: bool,
    retryCount: nat,
    ready: bool,
    pending: set<ChatId>,
    subscriptions: set<Channel>,
    phase: Phase,
    retryTimer: Option<nat>,
    subscriptionTimers: seq<SubscriptionRetryTimer>,
    feeds: Inbound.Feeds,
    typingExpiries: seq<UserId>)

  /** The chats that have a subscription retry timer among `ts`. */
  ghost function TimerChats(ts: seq<SubscriptionRetryTimer>): set<ChatId>
  {
    set t | t in ts :: t.chatId
  }

  lemma TimerChatsConcat(a: seq<SubscriptionRetryTimer>, b: seq<SubscriptionRetryTimer>)
    ensures TimerChats(a + b) == TimerChats(a) + TimerChats(b)
  {
    assert forall t :: t in a + b <==> t in a || t in b;
  }

  /** The channels of a set of chats. */
  ghost function Channels(ids: set<ChatId>): set<Channel>
  {
    set id | id in ids :: ChannelFor(id)
  }

  lemma ChannelsAdd(done: set<ChatId>, id: ChatId, refused: set<ChatId>, created: set<ChatId>)
    ensures Channels((done + {id}) - refused) == Channels(done - refused) + (if id in refused then {} else {ChannelFor(id)})
    ensures Channels((done + {id}) * created) == Channels(done * created) + (if id in created then {ChannelFor(id)} else {})
  {
    if id in refused {
      assert (done + {id}) - refused == done - refused;
    } else {
      assert (done + {id}) - refused == (done - refused) + {id};
    }
    if id in created {
      assert (done + {id}) * created == done * created + {id};
    } else {
      assert (done + {id}) * created == done * created;
    }
  }

  /**
   * The pending chats whose flush ends in a library throw: the link is
   * usable, neither side has the channel yet, and the library refuses.
   */
  ghost function Refused(pending: set<ChatId>, failing: set<ChatId>, recorded: set<Channel>,
                         held: set<Channel>, usable: bool): set<ChatId>
  {
    set id | id in pending && usable && ChannelFor(id) !in recorded && ChannelFor(id) !in held && id in failing
  }

  /** The pending chats whose flush creates a new handle in the service. */
  ghost function NewlyHeld(pending: set<ChatId>, failing: set<ChatId>, recorded: set<Channel>,
                         held: set<Channel>, usable: bool): set<ChatId>
  {
    set id | id in pending && usable && ChannelFor(id) !in recorded && ChannelFor(id) !in held && id !in failing
  }

  /** The timers after `timers0` are for distinct chats. */
  ghost predicate DistinctAfter(timers0: seq<SubscriptionRetryTimer>, timers: seq<SubscriptionRetryTimer>)
  {
    forall i, j :: |timers0| <= i < j < |timers| ==> timers[i].chatId != timers[j].chatId
  }

  /**
   * Where a flush of `pending` stands once the chats in `done` have been
   * handled, starting from recorded channels `subs0`, service handles
   * `keys0` and subscription timers `timers0`.
   */
  ghost predicate FlushedSoFar(pending: set<ChatId>, failing: set<ChatId>, subs0: set<Channel>, keys0: set<Channel>,
                               timers0: seq<SubscriptionRetryTimer>, usable: bool, done: set<ChatId>,
                               subs: set<Channel>, keys: set<Channel>, timers: seq<SubscriptionRetryTimer>)
  {
    && subs == subs0 + Channels(done - Refused(pending, failing, subs0, keys0, usable))
    && keys == keys0 + Channels(done * NewlyHeld(pending, failing, subs0, keys0, usable))
    && |timers| >= |timers0| && timers[..|timers0|] == timers0
    && (forall t :: t in timers[|timers0|..] ==> t.attempt == 1)
    && TimerChats(timers[|timers0|..]) == done * Refused(pending, failing, subs0, keys0, usable)
    && DistinctAfter(timers0, timers)
  }

  /** A chat not yet handled still sees its channel as it was at the start. */
  lemma FlushUntouched(pending: set<ChatId>, failing: set<ChatId>, subs0: set<Channel>, keys0: set<Channel>,
                       timers0: seq<SubscriptionRetryTimer>, usable: bool, done: set<ChatId>,
                       subs: set<Channel>, keys: set<Channel>, timers: seq<SubscriptionRetryTimer>, id: ChatId)
    requires FlushedSoFar(pending, failing, subs0, keys0, timers0, usable, done, subs, keys, timers)
    requires id !in done
    ensures ChannelFor(id) in subs <==> ChannelFor(id) in subs0
    ensures ChannelFor(id) in keys <==> ChannelFor(id) in keys0
  {
    forall other | other in done
      ensures ChannelFor(other) != ChannelFor(id)
    {
      ChannelForInjective(other, id);
    }
  }

  /** A timer for a chat that has none among the new ones keeps them distinct. */
  lemma DistinctAppend(timers0: seq<SubscriptionRetryTimer>, timers: seq<SubscriptionRetryTimer>,
                       done: set<ChatId>, t: SubscriptionRetryTimer)
    requires |timers0| <= |timers| && DistinctAfter(timers0, timers)
    requires TimerChats(timers[|timers0|..]) <= done && t.chatId !in done
    ensures DistinctAfter(timers0, timers + [t])
  {
    var ts := timers + [t];
    forall i, j | |timers0| <= i < j < |ts| ensures ts[i].chatId != ts[j].chatId {
      if j == |timers| {
        assert ts[i] == timers[i] == timers[|timers0|..][i - |timers0|];
        assert timers[i].chatId in TimerChats(timers[|timers0|..]);
      }
    }
  }

  /**
   * One `subscribeToChat` during a flush keeps `FlushedSoFar`: `o` is what
   * the service's `subscribe` answered, and the recorded channels, the
   * handles and the timers changed as `subscribeToChat` promises.
   */
  lemma FlushStep(pending: set<ChatId>, failing: set<ChatId>, subs0: set<Channel>, keys0: set<Channel>,
                  timers0: seq<SubscriptionRetryTimer>, usable: bool, done: set<ChatId>,
                  subs: set<Channel>, keys: set<Channel>, timers: seq<SubscriptionRetryTimer>,
                  id: ChatId, o: SubscribeOutcome,
                  subs': set<Channel>, keys': set<Channel>, timers': seq<SubscriptionRetryTimer>)
    requires FlushedSoFar(pending, failing, subs0, keys0, timers0, usable, done, subs, keys, timers)
    requires id in pending && id !in done
    requires ChannelFor(id) in subs ==> subs' == subs && keys' == keys && timers' == timers
    requires ChannelFor(id) !in subs ==>
      && !o.Suspended?
      && (o.Threw? <==> usable && ChannelFor(id) !in keys && id in failing)
      && (o.Created? <==> usable && ChannelFor(id) !in keys && id !in failing)
      && subs' == (if Recorded(o) then subs + {ChannelFor(id)} else subs)
      && keys' == (if o.Created? then keys + {ChannelFor(id)} else keys)
      && timers' == timers + (if o.Threw? then [SubscriptionRetryTimer(id, 1, Backoff.SubscriptionDelay(1))] else [])
    ensures FlushedSoFar(pending, failing, subs0, keys0, timers0, usable, done + {id}, subs', keys', timers')
  {
    var refused := Refused(pending, failing, subs0, keys0, usable);
    var created := NewlyHeld(pending, failing, subs0, keys0, usable);
    FlushUntouched(pending, failing, subs0, keys0, timers0, usable, done, subs, keys, timers, id);
    ChannelsAdd(done, id, refused, created);
    var added := timers'[|timers|..];
    assert timers'[..|timers|] == timers;
    assert timers'[|timers0|..] == timers[|timers0|..] + added;
    TimerChatsConcat(timers[|timers0|..], added);
    if ChannelFor(id) in subs {
      assert id !in refused && id !in created;
      assert added == [];
    } else if o.Threw? {
      assert id in refused && id !in created;
      assert added == [SubscriptionRetryTimer(id, 1, Backoff.SubscriptionDelay(1))];
      DistinctAppend(timers0, timers, done, added[0]);
    } else {
      assert id !in refused;
      assert added == [];
    }
  }

  /** Unsubscribing one more recorded channel during the cleanup. */
  lemma MapMinusStep(m: map<Channel, Subscription>, recorded: set<Channel>, todo: set<Channel>, c: Channel)
    requires c in todo && todo <= recorded
    ensures (m - (recorded - todo)) - {c} == m - (recorded - (todo - {c}))
  {
    assert recorded - (todo - {c}) == (recorded - todo) + {c};
  }

  /** The chats among `ids` whose channel is not recorded in `subs`. */
  ghost function Waiting(ids: set<ChatId>, subs: set<Channel>): set<ChatId>
  {
    set id | id in ids && ChannelFor(id) !in subs
  }

  lemma WaitingAdd(done: set<ChatId>, id: ChatId, subs: set<Channel>)
    ensures Waiting(done + {id}, subs) == Waiting(done, subs) + (if ChannelFor(id) in subs then {} else {id})
  {
  }

  /** `subscribeToChat` records the channel whenever `subscribe` neither suspended nor threw. */
  predicate Recorded(o: SubscribeOutcome)
  {
    !o.Suspended? && !o.Threw?
  }

  class ChatController {
    const service: CentrifugoService
    var isInitializing: bool
    var retryCount: nat
    /** `centrifugoReady`, read as its current value. */
    var ready: bool
    /** `pendingSubscriptions`: chat ids waiting for a ready link. */
    var pending: set<ChatId>
    /** `subscriptions`: the channel names this controller believes subscribed. */
    var subscriptions: set<Channel>
    var phase: Phase
    /** The connection retry timer, by its delay in ms. */
    var retryTimer: Option<nat>
    var subscriptionTimers: seq<SubscriptionRetryTimer>
    /** `messages`, `typingUsers` and `onlineUsers`. */
    var feeds: Inbound.Feeds
    /** Pending typing-expiry timers, by the user id each will clear. */
    var typingExpiries: seq<UserId>

    ghost function Snapshot(): ControllerState
      reads this
    {
      ControllerState(isInitializing, retryCount, ready, pending, subscriptions, phase,
                      retryTimer, subscriptionTimers, feeds, typingExpiries)
    }

    ghost predicate Valid()
      reads this, service
    {
      && service.Valid()
      && retryCount <= Backoff.MaxConnectionRetries
      && (phase != Idle ==> isInitializing)
      && (phase == AwaitingLink ==> service.live)
      && (retryTimer.Some? ==>
            isInitializing && phase == Idle && retryCount >= 1
            && retryTimer.value == Backoff.ConnectionDelay(retryCount))
      && (forall t :: t in subscriptionTimers ==>
            1 <= t.attempt <= Backoff.MaxSubscriptionRetries
            && t.delay == Backoff.SubscriptionDelay(t.attempt))
    }

    constructor (s: CentrifugoService)
      requires s.Valid()
      ensures Valid() && service == s
      ensures Snapshot() == ControllerState(false, 0, false, {}, {}, Idle, None, [], Inbound.Feeds([], [], {}), [])
    {
      service := s;
      isInitializing := false;
      retryCount := 0;
      ready := false;
      pending := {};
      subscriptions := {};
      phase := Idle;
      retryTimer := None;
      subscriptionTimers := [];
      feeds := Inbound.Feeds([], [], {});
      typingExpiries := [];
    }

    /**
     * `initializeCentrifugo`: a no-op while an initialisation is in
     * progress; otherwise marks one in progress, resets the retry count and
     * starts the token fetch.
     */
    method Initialize()
      requires Valid()
      modifies this
      ensures Valid()
      ensures old(isInitializing) ==> Snapshot() == old(Snapshot())
      ensures !old(isInitializing) ==>
        Snapshot() == old(Snapshot()).(isInitializing := true, retryCount := 0, phase := FetchingToken)
    {
      if isInitializing {
        return;
      }
      isInitializing := true;
      retryCount := 0;
      phase := FetchingToken;
    }

    /**
     * `retryCentrifugoConnection`: acts only when no initialisation is in
     * progress, and then starts one from a zero retry count.
     */
    method ManualRetry()
      requires Valid()
      modifies this
      ensures Valid()
      ensures old(isInitializing) ==> Snapshot() == old(Snapshot())
      ensures !old(isInitializing) ==>
        Snapshot() == old(Snapshot()).(isInitializing := true, retryCount := 0, phase := FetchingToken)
    {
      if !isInitializing {
        retryCount := 0;
        Initialize();
      }
    }

    /**
     * `scheduleRetry`: once five retries were scheduled it gives up and
     * clears `isInitializing`; otherwise it increments the count first and
     * schedules the next attempt after `ConnectionDelay` of the new count.
     */
    method ScheduleRetry()
      requires Valid() && isInitializing && phase == Idle && retryTimer == None
      modifies this
      ensures Valid()
      ensures retryTimer == Backoff.ConnectionRetryPlan(old(retryCount))
      ensures Snapshot() == old(Snapshot()).(
        isInitializing := retryTimer.Some?,
        retryCount := if retryTimer.Some? then old(retryCount) + 1 else old(retryCount),
        retryTimer := retryTimer)
    {
      if retryCount >= Backoff.MaxConnectionRetries {
        isInitializing := false;
        return;
      }
      retryCount := retryCount + 1;
      retryTimer := Some(Backoff.ConnectionDelay(retryCount));
    }

    /** The connection retry timer fires: a new attempt starts, without touching the count. */
    method FireRetry()
      requires Valid() && retryTimer.Some?
      modifies this
      ensures Valid()
      ensures Snapshot() == old(Snapshot()).(retryTimer := None, phase := FetchingToken)
    {
      retryTimer := None;
      phase := FetchingToken;
    }

    /**
     * The awaited token fetch settles. A failed fetch is the only failure
     * that reaches `scheduleRetry`; a token starts the service's
     * `initialize`.
     */
    method TokenFetched(ok: bool)
      requires Valid() && phase == FetchingToken
      modifies this, service
      ensures Valid()
      ensures ok ==> Snapshot() == old(Snapshot()).(phase := AwaitingLink)
      ensures ok ==> service.live && service.connection == Pending && service.subscriptions == map[]
      ensures !ok ==> unchanged(service)
      ensures !ok ==> retryTimer == Backoff.ConnectionRetryPlan(old(retryCount))
      ensures !ok ==> Snapshot() == old(Snapshot()).(
        phase := Idle,
        isInitializing := retryTimer.Some?,
        retryCount := if retryTimer.Some? then old(retryCount) + 1 else old(retryCount),
        retryTimer := retryTimer)
    {
      if !ok {
        phase := Idle;
        ScheduleRetry();
      } else {
        service.Initialize();
        phase := AwaitingLink;
      }
    }

    /**
     * The awaited `initialize` settles. Its value is ignored: a connection
     * that resolved `false` still marks the link ready. Readiness is set,
     * the attempt ends, the count resets, and the pending chats are flushed.
     */
    method LinkSettled(failing: set<ChatId>)
      requires Valid() && phase == AwaitingLink && service.connection.Settled?
      modifies this, service
      ensures Valid()
      ensures ready && !isInitializing && retryCount == 0 && phase == Idle && pending == {}
      ensures retryTimer == old(retryTimer) && feeds == old(feeds) && typingExpiries == old(typingExpiries)
      ensures subscriptions == old(subscriptions) +
        Channels(old(pending) - Refused(old(pending), failing, old(subscriptions), old(service.subscriptions.Keys),
                                        old(service.Usable())))
    {
      ready := true;
      isInitializing := false;
      retryCount := 0;
      phase := Idle;
      ProcessPending(failing);
    }

    /**
     * `processPendingSubscriptions`: one `subscribeToChat` per pending chat,
     * then the pending set is emptied. `failing` names the chats whose
     * subscription the broker library refuses.
     */
    method ProcessPending(failing: set<ChatId>)
      requires Valid() && ready && service.live && service.connection.Settled?
      modifies this, service
      ensures Valid()
      ensures pending == {}
      ensures var refused := Refused(old(pending), failing, old(subscriptions), old(service.subscriptions.Keys),
                                     old(service.Usable()));
        && subscriptions == old(subscriptions) + Channels(old(pending) - refused)
        && |subscriptionTimers| >= |old(subscriptionTimers)|
        && subscriptionTimers[..|old(subscriptionTimers)|] == old(subscriptionTimers)
        && (forall t :: t in subscriptionTimers[|old(subscriptionTimers)|..] ==> t.attempt == 1)
        && TimerChats(subscriptionTimers[|old(subscriptionTimers)|..]) == refused
        && (forall i, j :: |old(subscriptionTimers)| <= i < j < |subscriptionTimers| ==>
              subscriptionTimers[i].chatId != subscriptionTimers[j].chatId)
      ensures service.subscriptions.Keys == old(service.subscriptions.Keys) +
        Channels(NewlyHeld(old(pending), failing, old(subscriptions), old(service.subscriptions.Keys), old(service.Usable())))
      ensures service.live && service.isConnected == old(service.isConnected) && service.connection == old(service.connection)
      ensures Snapshot() == old(Snapshot()).(pending := {}, subscriptions := subscriptions,
                                             subscriptionTimers := subscriptionTimers)
    {
      ghost var subs0, keys0, timers0 := subscriptions, service.subscriptions.Keys, subscriptionTimers;
      ghost var usable := service.Usable();
      var todo := pending;
      ghost var done: set<ChatId> := {};
      while todo != {}
        invariant Valid()
        invariant todo + done == old(pending) && todo !! done
        invariant ready && service.live && service.isConnected == old(service.isConnected)
        invariant service.connection == old(service.connection)
        invariant Snapshot() == old(Snapshot()).(subscriptions := subscriptions, subscriptionTimers := subscriptionTimers)
        invariant FlushedSoFar(old(pending), failing, subs0, keys0, timers0, usable, done,
                               subscriptions, service.subscriptions.Keys, subscriptionTimers)
        decreases todo
      {
        var id :| id in todo;
        FlushOne(id, failing, old(pending), subs0, keys0, timers0, usable, done);
        todo := todo - {id};
        done := done + {id};
      }
      pending := {};
      ghost var refused := Refused(old(pending), failing, subs0, keys0, usable);
      assert done - refused == old(pending) - refused && done * refused == refused;
      assert done * NewlyHeld(old(pending), failing, subs0, keys0, usable) == NewlyHeld(old(pending), failing, subs0, keys0, usable);
    }

    /** One step of `processPendingSubscriptions`, keeping `FlushedSoFar`. */
    method FlushOne(id: ChatId, failing: set<ChatId>, ghost pending0: set<ChatId>, ghost subs0: set<Channel>,
                    ghost keys0: set<Channel>, ghost timers0: seq<SubscriptionRetryTimer>, ghost usable: bool,
                    ghost done: set<ChatId>)
      requires Valid() && ready && service.live && service.connection.Settled?
      requires usable == service.Usable() && id in pending0 && id !in done
      requires FlushedSoFar(pending0, failing, subs0, keys0, timers0, usable, done,
                            subscriptions, service.subscriptions.Keys, subscriptionTimers)
      modifies this, service
      ensures Valid() && ready && service.live
      ensures service.isConnected == old(service.isConnected) && service.connection == old(service.connection)
      ensures Snapshot() == old(Snapshot()).(subscriptions := subscriptions, subscriptionTimers := subscriptionTimers)
      ensures FlushedSoFar(pending0, failing, subs0, keys0, timers0, usable, done + {id},
                           subscriptions, service.subscriptions.Keys, subscriptionTimers)
    {
      ghost var subs, keys, timers := subscriptions, service.subscriptions.Keys, subscriptionTimers;
      ghost var o := service.Probe(ChannelFor(id), id in failing);
      SubscribeToChat(id, id in failing);
      FlushStep(pending0, failing, subs0, keys0, timers0, usable, done, subs, keys, timers, id, o,
                subscriptions, service.subscriptions.Keys, subscriptionTimers);
    }

    /**
     * `processPendingSubscriptions` as the source runs it after a connection
     * attempt that began while readiness was false (the first one always
     * does): the callback sees the readiness of the render that created it,
     * so each `subscribeToChat` re-queues its chat and starts an
     * initialisation, and the queue is then cleared. No pending chat is
     * subscribed, and none stays queued.
     */
    method ProcessPendingUnready()
      requires Valid()
      modifies this
      ensures Valid()
      ensures pending == {} && subscriptions == old(subscriptions)
      ensures Snapshot() ==
        if Waiting(old(pending), old(subscriptions)) == {} || old(isInitializing)
        then old(Snapshot()).(pending := {})
        else old(Snapshot()).(pending := {}, isInitializing := true, retryCount := 0, phase := FetchingToken)
    {
      var todo := pending;
      ghost var done: set<ChatId> := {};
      while todo != {}
        invariant Valid()
        invariant todo + done == old(pending) && todo !! done
        invariant Snapshot() ==
          if Waiting(done, old(subscriptions)) == {} || old(isInitializing) then old(Snapshot())
          else old(Snapshot()).(isInitializing := true, retryCount := 0, phase := FetchingToken)
        decreases todo
      {
        var id :| id in todo;
        if ChannelFor(id) !in subscriptions {
          pending := pending + {id};
          if !isInitializing {
            Initialize();
          }
        }
        WaitingAdd(done, id, old(subscriptions));
        todo := todo - {id};
        done := done + {id};
      }
      pending := {};
    }

    /**
     * `subscribeToChat(chatId)`: nothing for a channel already recorded;
     * while not ready the chat is queued (a set, so never twice) and an
     * initialisation starts unless one is in progress; once ready, one call
     * to the service's `subscribe`, recording the channel unless that call
     * suspends or throws, and scheduling a subscription retry (attempt 1)
     * when it throws.
     */
    method SubscribeToChat(chatId: ChatId, libraryThrows: bool)
      requires Valid()
      modifies this, service
      ensures Valid()
      ensures ChannelFor(chatId) in old(subscriptions) ==>
        Snapshot() == old(Snapshot()) && unchanged(service)
      ensures ChannelFor(chatId) !in old(subscriptions) && !old(ready) ==>
        unchanged(service) &&
        Snapshot() == if old(isInitializing)
          then old(Snapshot()).(pending := old(pending) + {chatId})
          else old(Snapshot()).(pending := old(pending) + {chatId},
                                isInitializing := true, retryCount := 0, phase := FetchingToken)
      ensures ChannelFor(chatId) !in old(subscriptions) && old(ready) ==>
        var o := old(service.Probe(ChannelFor(chatId), libraryThrows));
        && Snapshot() == old(Snapshot()).(
             subscriptions := if Recorded(o) then old(subscriptions) + {ChannelFor(chatId)} else old(subscriptions),
             subscriptionTimers := old(subscriptionTimers) +
               if o.Threw? then [SubscriptionRetryTimer(chatId, 1, Backoff.SubscriptionDelay(1))] else [])
        && service.subscriptions ==
             (if o.Created? then old(service.subscriptions)[ChannelFor(chatId) := o.sub] else old(service.subscriptions))
        && service.live == old(service.live) && service.isConnected == old(service.isConnected)
        && service.connection == old(service.connection)
    {
      var channel := ChannelFor(chatId);
      if channel in subscriptions {
        return;
      }
      if !ready {
        pending := pending + {chatId};
        if !isInitializing {
          Initialize();
        }
        return;
      }
      var o := service.Subscribe(channel, libraryThrows);
      if o.Threw? {
        ScheduleSubscriptionRetry(chatId, 1);
      } else if !o.Suspended? {
        subscriptions := subscriptions + {channel};
      }
    }

    /**
     * `scheduleSubscriptionRetry(chatId, attempt)`: nothing past the third
     * attempt, otherwise one timer after `SubscriptionDelay(attempt)`.
     */
    method ScheduleSubscriptionRetry(chatId: ChatId, attempt: nat)
      requires Valid() && attempt >= 1
      modifies this
      ensures Valid()
      ensures Snapshot() == old(Snapshot()).(subscriptionTimers := old(subscriptionTimers) +
        match Backoff.SubscriptionRetryPlan(attempt)
        case None => []
        case Some(d) => [SubscriptionRetryTimer(chatId, attempt, d)])
    {
      match Backoff.SubscriptionRetryPlan(attempt)
      case None =>
      case Some(d) =>
        subscriptionTimers := subscriptionTimers + [SubscriptionRetryTimer(chatId, attempt, d)];
    }

    /**
     * A subscription retry timer fires: resubscribe when ready, otherwise
     * put the chat back among the pending ones. A retry that throws again
     * schedules a new timer at attempt 1; the attempt never grows.
     */
    method FireSubscriptionRetry(i: nat, libraryThrows: bool)
      requires Valid() && i < |subscriptionTimers|
      modifies this, service
      ensures Valid()
      ensures var t := old(subscriptionTimers[i]);
        !old(ready) ==>
          unchanged(service) &&
          Snapshot() == old(Snapshot()).(pending := old(pending) + {t.chatId},
                                         subscriptionTimers := old(subscriptionTimers[..i] + subscriptionTimers[i + 1..]))
      ensures var t := old(subscriptionTimers[i]);
        var c := ChannelFor(t.chatId);
        var o := old(service.Probe(c, libraryThrows));
        var isNew := c !in old(subscriptions);
        old(ready) ==>
          && Snapshot() == old(Snapshot()).(
               subscriptions := if isNew && Recorded(o) then old(subscriptions) + {c} else old(subscriptions),
               subscriptionTimers := old(subscriptionTimers[..i] + subscriptionTimers[i + 1..]) +
                 if isNew && o.Threw? then [SubscriptionRetryTimer(t.chatId, 1, Backoff.SubscriptionDelay(1))] else [])
          && service.subscriptions ==
               (if isNew && o.Created? then old(service.subscriptions)[c := o.sub] else old(service.subscriptions))
          && service.live == old(service.live) && service.isConnected == old(service.isConnected)
          && service.connection == old(service.connection)
    {
      var t := subscriptionTimers[i];
      subscriptionTimers := subscriptionTimers[..i] + subscriptionTimers[i + 1..];
      if ready {
        SubscribeToChat(t.chatId, libraryThrows);
      } else {
        pending := pending + {t.chatId};
      }
    }

    /** The subscription's `onError` handler: forget the channel and retry from attempt 1. */
    method OnSubscriptionError(chatId: ChatId)
      requires Valid()
      modifies this
      ensures Valid()
      ensures Snapshot() == old(Snapshot()).(
        subscriptions := old(subscriptions) - {ChannelFor(chatId)},
        subscriptionTimers := old(subscriptionTimers) + [SubscriptionRetryTimer(chatId, 1, Backoff.SubscriptionDelay(1))])
    {
      subscriptions := subscriptions - {ChannelFor(chatId)};
      ScheduleSubscriptionRetry(chatId, 1);
    }

    /**
     * The subscription's `onDisconnect` handler: forget the channel, drop
     * readiness and initialise again (a no-op if already initialising).
     * The service keeps its handle for the channel.
     */
    method OnSubscriptionDisconnect(chatId: ChatId)
      requires Valid()
      modifies this
      ensures Valid()
      ensures var s := old(Snapshot()).(subscriptions := old(subscriptions) - {ChannelFor(chatId)}, ready := false);
        Snapshot() == if old(isInitializing) then s
                      else s.(isInitializing := true, retryCount := 0, phase := FetchingToken)
    {
      subscriptions := subscriptions - {ChannelFor(chatId)};
      ready := false;
      Initialize();
    }

    /**
     * The subscription's `onMessage` handler: the event goes to the reducer
     * its tag selects, and a "typing" event also arms a 3000 ms expiry for
     * that user.
     */
    method OnPublication(p: Publication)
      requires Valid()
      modifies this
      ensures Valid()
      ensures Snapshot() == old(Snapshot()).(
        feeds := Inbound.Dispatch(old(feeds), p),
        typingExpiries := old(typingExpiries) +
          if p.TypingPub? && p.typing.isTyping then [p.typing.userId] else [])
    {
      feeds := Inbound.Dispatch(feeds, p);
      if p.TypingPub? && p.typing.isTyping {
        typingExpiries := typingExpiries + [p.typing.userId];
      }
    }

    /** A typing expiry fires: every entry of that user goes, whichever event armed the timer. */
    method FireTypingExpiry(i: nat)
      requires Valid() && i < |typingExpiries|
      modifies this
      ensures Valid()
      ensures Snapshot() == old(Snapshot()).(
        feeds := old(feeds).(typing := Inbound.ExpireTyping(old(feeds.typing), old(typingExpiries[i]))),
        typingExpiries := old(typingExpiries[..i] + typingExpiries[i + 1..]))
    {
      var userId := typingExpiries[i];
      typingExpiries := typingExpiries[..i] + typingExpiries[i + 1..];
      feeds := feeds.(typing := Inbound.ExpireTyping(feeds.typing, userId));
    }

    /**
     * The effect's cleanup: unsubscribe every recorded channel from the
     * service, clear the recorded set and cancel the connection retry
     * timer. Nothing else is reset: `isInitializing`, readiness, the pending
     * chats and the other timers stay as they were.
     */
    method Cleanup()
      requires Valid()
      modifies this, service
      ensures Valid()
      ensures service.subscriptions == old(service.subscriptions) - old(subscriptions)
      ensures service.live == old(service.live) && service.isConnected == old(service.isConnected)
      ensures service.connection == old(service.connection)
      ensures Snapshot() == old(Snapshot()).(subscriptions := {}, retryTimer := None)
    {
      var todo := subscriptions;
      while todo != {}
        invariant Valid()
        invariant todo <= old(subscriptions)
        invariant service.subscriptions == old(service.subscriptions) - (old(subscriptions) - todo)
        invariant service.live == old(service.live) && service.isConnected == old(service.isConnected)
        invariant service.connection == old(service.connection)
        invariant Snapshot() == old(Snapshot())
        decreases todo
      {
        var c :| c in todo;
        service.Unsubscribe(c);
        MapMinusStep(old(service.subscriptions), old(subscriptions), todo, c);
        todo := todo - {c};
      }
      subscriptions := {};
      retryTimer := None;
    }
  }
}
