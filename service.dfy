/**
 * The browser's subscription registry (services/centrifugo.js, class
 * `CentrifugoService`): one broker client at a time, a map from channel to
 * subscription handle, a connected flag and the outcome of the current
 * connection attempt.
 */
module Service {
  import opened Protocol

  /**
   * A subscription handle. The broker library allocates a fresh object per
   * `newSubscription`; `id` stands for that object's identity.
   */
  datatype Subscription = Subscription(id: nat, channel: Channel)

  /**
   * `connectionPromise`: absent (`null`), pending, or settled with the value
   * it was resolved with. A promise settles once; later resolves are ignored.
   */
  datatype Connection = NoPromise | Pending | Settled(connected: bool)

  /** What a call to `subscribe` comes to. */
  datatype SubscribeOutcome =
    | NotInitialized            // no broker client: returns undefined
    | ConnectionFailed          // the awaited connection resolved false: returns undefined
    | Suspended                 // still awaiting a pending connection
    | Threw                     // the broker library threw while creating the subscription
    | Existing(sub: Subscription)
    | Created(sub: Subscription)

  class CentrifugoService {
    /** `this.centrifuge !== null` */
    var live: bool
    var subscriptions: map<Channel, Subscription>
    var isConnected: bool
    var connection: Connection
    /** Identity of the next handle the broker library will allocate. */
    var nextId: nat

    ghost predicate Valid()
      reads this
    {
      && (forall c :: c in subscriptions ==> subscriptions[c].channel == c && subscriptions[c].id < nextId)
      && (forall c, d :: c in subscriptions && d in subscriptions && c != d ==> subscriptions[c].id != subscriptions[d].id)
      && (!live ==> subscriptions == map[] && !isConnected && connection == NoPromise)
      && (live ==> connection != NoPromise)
    }

    constructor ()
      ensures Valid()
      ensures !live && subscriptions == map[] && !isConnected && connection == NoPromise
    {
      live := false;
      subscriptions := map[];
      isConnected := false;
      connection := NoPromise;
      nextId := 0;
    }

    /**
     * Whether `subscribe` gets past its connection check: the client is
     * connected, or its connection promise resolved `true`.
     */
    ghost predicate Usable()
      reads this
    {
      isConnected || connection == Settled(true)
    }

    /** What `subscribe(channel, ...)` would come to in the current state. */
    ghost function Probe(channel: Channel, libraryThrows: bool): (o: SubscribeOutcome)
      reads this
      ensures o.Existing? <==> live && !(!isConnected && connection in {Pending, Settled(false)}) && channel in subscriptions
      ensures o.Existing? ==> o.sub == subscriptions[channel]
      ensures o.Created? ==> o.sub == Subscription(nextId, channel)
    {
      if !live then NotInitialized
      else if !isConnected && connection == Pending then Suspended
      else if !isConnected && connection == Settled(false) then ConnectionFailed
      else if channel in subscriptions then Existing(subscriptions[channel])
      else if libraryThrows then Threw
      else Created(Subscription(nextId, channel))
    }

    /**
     * `initialize(token)`: tear down a live client first, then start a new
     * one whose connection promise is pending.
     */
    method Initialize()
      requires Valid()
      modifies this
      ensures Valid()
      ensures live && subscriptions == map[] && !isConnected && connection == Pending
      ensures nextId == old(nextId)
    {
      if live {
        Disconnect();
      }
      connection := Pending;
      live := true;
    }

    /** The client's `connected` event. */
    method OnConnected()
      requires Valid() && live
      modifies this
      ensures Valid()
      ensures isConnected
      ensures connection == if old(connection) == Pending then Settled(true) else old(connection)
      ensures live && subscriptions == old(subscriptions) && nextId == old(nextId)
    {
      isConnected := true;
      if connection == Pending {
        connection := Settled(true);
      }
    }

    /** The client's `disconnected` event. */
    method OnDisconnected()
      requires Valid() && live
      modifies this
      ensures Valid()
      ensures !isConnected
      ensures live && connection == old(connection) && subscriptions == old(subscriptions) && nextId == old(nextId)
    {
      isConnected := false;
    }

    /** The client's `error` event: settles a pending connection with `false`. */
    method OnError()
      requires Valid() && live
      modifies this
      ensures Valid()
      ensures connection == if old(connection) == Pending then Settled(false) else old(connection)
      ensures live && isConnected == old(isConnected) && subscriptions == old(subscriptions) && nextId == old(nextId)
    {
      if connection == Pending {
        connection := Settled(false);
      }
    }

    /**
     * `subscribe(channel, callbacks)`. At most one handle per channel: a
     * channel already in the map gets its existing handle back, and only a
     * successful creation adds an entry, for that channel alone.
     */
    method Subscribe(channel: Channel, libraryThrows: bool) returns (o: SubscribeOutcome)
      requires Valid()
      modifies this
      ensures Valid()
      ensures o == old(Probe(channel, libraryThrows))
      ensures subscriptions == if o.Created? then old(subscriptions)[channel := o.sub] else old(subscriptions)
      ensures o.Created? ==> channel !in old(subscriptions)
      ensures nextId == if o.Created? then old(nextId) + 1 else old(nextId)
      ensures live == old(live) && isConnected == old(isConnected) && connection == old(connection)
    {
      if !live {
        return NotInitialized;
      }
      if !isConnected && connection != NoPromise {
        if connection == Pending {
          return Suspended;
        }
        if !connection.connected {
          return ConnectionFailed;
        }
      }
      if channel in subscriptions {
        return Existing(subscriptions[channel]);
      }
      if libraryThrows {
        return Threw;
      }
      var sub := Subscription(nextId, channel);
      nextId := nextId + 1;
      subscriptions := subscriptions[channel := sub];
      return Created(sub);
    }

    /** `unsubscribe(channel)`: removes that channel only; absent channels are a no-op. */
    method Unsubscribe(channel: Channel)
      requires Valid()
      modifies this
      ensures Valid()
      ensures subscriptions == old(subscriptions) - {channel}
      ensures live == old(live) && isConnected == old(isConnected) && connection == old(connection)
      ensures nextId == old(nextId)
    {
      if channel in subscriptions {
        subscriptions := subscriptions - {channel};
      }
    }

    /** `disconnect()`: forgets every handle and the connection; a no-op when never initialised. */
    method Disconnect()
      requires Valid()
      modifies this
      ensures Valid()
      ensures !old(live) ==> unchanged(this)
      ensures !live && subscriptions == map[] && !isConnected && connection == NoPromise
      ensures nextId == old(nextId)
    {
      if live {
        live := false;
        subscriptions := map[];
        isConnected := false;
        connection := NoPromise;
      }
    }
  }
}
