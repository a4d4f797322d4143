/** The AMQP publisher module: on start it connects to a broker, optionally declares an exchange and
    subscribes to every event on the runtime's event bus; each event is republished to the broker;
    on stop it revokes its subscriptions and closes the channel and the connection. */
module AmqpPublisher {
  import opened Wrappers

  // ---------------------------------------------------------------------------------------------
  // Configuration, events, and what the module asks of its surroundings
  // ---------------------------------------------------------------------------------------------

  datatype ExchangeType = Direct | Topic | Headers | Fanout | Match

  datatype ExchangeConfig = ExchangeConfig(name: string, exchangeType: Option<ExchangeType>)

  /** `AMQPPublisherModuleConfiguration`: an optional broker URL and an optional exchange. */
  datatype Configuration = Configuration(url: Option<string>, exchange: Option<ExchangeConfig>)

  /** A runtime event. A `DataEvent` carries data, which the model keeps as an opaque value. */
  datatype Event = DataEvent(namespace: string, data: string) | PlainEvent(namespace: string)

  /** The value handed to `JSON.stringify` before publishing: the event's data, or `{}`. */
  datatype Payload = EventData(data: string) | EmptyObject

  /** An entry of `eventSubscriptions`. */
  datatype Subscription = Subscription(target: string, subscriptionId: nat)

  /** The broker connection and channel handles, known by the URL they were opened on. */
  datatype Connection = Connection(url: string)
  datatype Channel = Channel(url: string)

  /** One call the module makes on the event bus or the broker. */
  datatype Action =
    | Subscribe(target: string, subscriptionId: nat)
    | Unsubscribe(target: string, subscriptionId: nat)
    | Connect(url: string)
    | CreateChannel
    | AssertExchange(name: string, exchangeType: ExchangeType)
    | Publish(exchange: string, routingKey: string, content: Payload)
    | CloseChannel
    | CloseConnection

  /** The awaited broker calls of `start`, any of which the broker may reject. */
  datatype StartStep = ConnectStep | ChannelStep | AssertStep

  datatype StartError = UrlNotDefined | BrokerRejected(step: StartStep)

  /** What `handleEvent` leads to: the broker buffered the message, it did not (logged only), or
      there was no channel and `this.channel!.publish` threw a TypeError. */
  datatype PublishResult = Sent | NotBuffered | NoChannel

  /** The wildcard that matches every event. */
  const AllEvents := "**"

  /** The event bus shared by all modules and the broker, as the module sees them: the live
      subscriptions by id, the next id the bus hands out, and the log of calls made. */
  class Environment {
    var live: map<nat, string>
    var nextId: nat
    var log: seq<Action>

    ghost predicate Valid()
      reads this
    {
      forall id :: id in live ==> id < nextId
    }

    constructor ()
      ensures Valid() && live == map[] && nextId == 0 && log == []
    {
      live := map[];
      nextId := 0;
      log := [];
    }

    /** `eventBus.subscribe(target, handler)`: registers a subscription under a fresh id. */
    method BusSubscribe(target: string) returns (id: nat)
      requires Valid()
      modifies this
      ensures Valid()
      ensures id == old(nextId) && id !in old(live)
      ensures live == old(live)[id := target] && nextId == old(nextId) + 1
      ensures log == old(log) + [Subscribe(target, id)]
    {
      id := nextId;
      live := live[id := target];
      nextId := nextId + 1;
      log := log + [Subscribe(target, id)];
    }

    /** `eventBus.unsubscribe(target, id)`: revokes the subscription with that id, if it is live. */
    method BusUnsubscribe(target: string, id: nat)
      requires Valid()
      modifies this
      ensures Valid()
      ensures live == old(live) - {id} && nextId == old(nextId)
      ensures log == old(log) + [Unsubscribe(target, id)]
    {
      live := live - {id};
      log := log + [Unsubscribe(target, id)];
    }

    /** A call on the broker; it leaves the event bus as it is. */
    method BrokerCall(a: Action)
      requires !a.Subscribe? && !a.Unsubscribe?
      modifies this
      ensures old(Valid()) ==> Valid()
      ensures live == old(live) && nextId == old(nextId)
      ensures log == old(log) + [a]
    {
      log := log + [a];
    }
  }

  // ---------------------------------------------------------------------------------------------
  // Specification functions
  // ---------------------------------------------------------------------------------------------

  /** `if (!url)`: an absent or empty URL counts as not defined. */
  predicate UrlDefined(c: Configuration)
  {
    c.url.Some? && c.url.value != ""
  }

  /** `exchange.type ?? "fanout"` */
  function TypeOf(x: ExchangeConfig): ExchangeType
  {
    x.exchangeType.GetOr(Fanout)
  }

  /** `this.configuration.exchange?.name ?? ""`: the configured exchange, or the broker's default one. */
  function ExchangeName(c: Configuration): string
  {
    if c.exchange.Some? then c.exchange.value.name else ""
  }

  /** `event instanceof DataEvent ? event.data : {}` */
  function PayloadOf(e: Event): Payload
  {
    match e
    case DataEvent(_, d) => EventData(d)
    case PlainEvent(_) => EmptyObject
  }

  /** Whether the broker rejects `step` when the step is reached. */
  predicate Rejects(rejected: Option<StartStep>, step: StartStep)
  {
    rejected == Some(step)
  }

  /** The result of `start`, given which awaited broker call (if any) the broker rejects. */
  function StartResult(c: Configuration, rejected: Option<StartStep>): Result<(), StartError>
  {
    if !UrlDefined(c) then Failure(UrlNotDefined)
    else if Rejects(rejected, ConnectStep) then Failure(BrokerRejected(ConnectStep))
    else if Rejects(rejected, ChannelStep) then Failure(BrokerRejected(ChannelStep))
    else if c.exchange.Some? && Rejects(rejected, AssertStep) then Failure(BrokerRejected(AssertStep))
    else Success(())
  }

  /** The calls `start` makes, in order, when the bus would hand out `id`. */
  function StartActions(c: Configuration, rejected: Option<StartStep>, id: nat): seq<Action>
  {
    if !UrlDefined(c) then []
    else if Rejects(rejected, ConnectStep) then [Connect(c.url.value)]
    else if Rejects(rejected, ChannelStep) then [Connect(c.url.value), CreateChannel]
    else if c.exchange.None? then [Connect(c.url.value), CreateChannel, Subscribe(AllEvents, id)]
    else
      var assertCall := AssertExchange(c.exchange.value.name, TypeOf(c.exchange.value));
      if Rejects(rejected, AssertStep) then [Connect(c.url.value), CreateChannel, assertCall]
      else [Connect(c.url.value), CreateChannel, assertCall, Subscribe(AllEvents, id)]
  }

  /** The unsubscribe calls for `subs`, in list order. */
  function UnsubscribeActions(subs: seq<Subscription>): (t: seq<Action>)
    ensures |t| == |subs|
    ensures forall i :: 0 <= i < |subs| ==> t[i] == Unsubscribe(subs[i].target, subs[i].subscriptionId)
  {
    seq(|subs|, i requires 0 <= i < |subs| => Unsubscribe(subs[i].target, subs[i].subscriptionId))
  }

  /** The calls `stop` makes, in order. */
  function StopActions(subs: seq<Subscription>, channel: Option<Channel>, connection: Option<Connection>): seq<Action>
  {
    UnsubscribeActions(subs) +
    (if channel.Some? then [CloseChannel] else []) +
    (if connection.Some? then [CloseConnection] else [])
  }

  /** The subscription ids in `subs`. */
  function IdsOf(subs: seq<Subscription>): set<nat>
  {
    set s | s in subs :: s.subscriptionId
  }

  /** The ids in `subs` increase strictly along the list and are all below `bound`. */
  predicate IdsIncreasingBelow(subs: seq<Subscription>, bound: nat)
  {
    (forall i :: 0 <= i < |subs| ==> subs[i].subscriptionId < bound) &&
    (forall i, j :: 0 <= i < j < |subs| ==> subs[i].subscriptionId < subs[j].subscriptionId)
  }

  /** Appending the id the bus hands out next keeps the ids increasing and below the new bound. */
  lemma AppendFreshId(subs: seq<Subscription>, target: string, id: nat)
    requires IdsIncreasingBelow(subs, id)
    ensures IdsIncreasingBelow(subs + [Subscription(target, id)], id + 1)
  {
  }

  // ---------------------------------------------------------------------------------------------
  // Properties of the call sequences
  // ---------------------------------------------------------------------------------------------

  /** Without a URL, `start` fails before making any call. */
  lemma StartWithoutUrlFailsFirst(c: Configuration, rejected: Option<StartStep>, id: nat)
    requires !UrlDefined(c)
    ensures StartResult(c, rejected) == Failure(UrlNotDefined)
    ensures StartActions(c, rejected, id) == []
  {
  }

  /** Once the channel exists, the exchange is asserted exactly when one is configured, right after
      the channel and before the subscription, with the type defaulting to fanout. */
  lemma AssertExchangeIffConfigured(c: Configuration, rejected: Option<StartStep>, id: nat)
    requires UrlDefined(c) && !Rejects(rejected, ConnectStep) && !Rejects(rejected, ChannelStep)
    ensures var t := StartActions(c, rejected, id);
      (exists i :: 0 <= i < |t| && t[i].AssertExchange?) <==> c.exchange.Some?
    ensures var t := StartActions(c, rejected, id);
      c.exchange.Some? ==>
        t[1] == CreateChannel &&
        t[2] == AssertExchange(c.exchange.value.name, c.exchange.value.exchangeType.GetOr(Fanout)) &&
        forall i :: 0 <= i < |t| && t[i].Subscribe? ==> i == 3
  {
  }

  /** `start` subscribes at most once, as its last call, to every event with the id the bus gives;
      it does so exactly when it succeeds. */
  lemma StartSubscribesOnceOnSuccess(c: Configuration, rejected: Option<StartStep>, id: nat)
    ensures var t := StartActions(c, rejected, id);
      forall i :: 0 <= i < |t| && t[i].Subscribe? ==> i == |t| - 1 && t[i] == Subscribe(AllEvents, id)
    ensures var t := StartActions(c, rejected, id);
      StartResult(c, rejected).Success? <==> (|t| > 0 && t[|t| - 1] == Subscribe(AllEvents, id))
  {
  }

  /** `stop` makes every unsubscribe call, in list order, before any close; the channel is closed
      before the connection, and the connection close is made whether or not a channel exists. */
  lemma StopUnsubscribesBeforeClosing(subs: seq<Subscription>, channel: Option<Channel>, connection: Option<Connection>)
    ensures var t := StopActions(subs, channel, connection);
      forall i :: 0 <= i < |subs| ==> t[i] == Unsubscribe(subs[i].target, subs[i].subscriptionId)
    ensures var t := StopActions(subs, channel, connection);
      forall i :: 0 <= i < |t| && (t[i] == CloseChannel || t[i] == CloseConnection) ==> i >= |subs|
    ensures var t := StopActions(subs, channel, connection);
      forall i, j :: 0 <= i < |t| && 0 <= j < |t| && t[i] == CloseChannel && t[j] == CloseConnection ==> i < j
    ensures var t := StopActions(subs, channel, connection);
      (CloseChannel in t <==> channel.Some?) && (CloseConnection in t <==> connection.Some?)
  {
  }

  // ---------------------------------------------------------------------------------------------
  // The module
  // ---------------------------------------------------------------------------------------------

  /** `AMQPPublisherModule`. */
  class PublisherModule {
    const configuration: Configuration
    var eventSubscriptions: seq<Subscription>
    var connection: Option<Connection>
    var channel: Option<Channel>

    /** The recorded subscription ids were all handed out by `env`, in increasing order, and the
        module only holds subscriptions once it has a connection and a channel. */
    ghost predicate Valid(env: Environment)
      reads this, env
    {
      env.Valid() &&
      IdsIncreasingBelow(eventSubscriptions, env.nextId) &&
      (eventSubscriptions != [] ==> connection.Some? && channel.Some?)
    }

    constructor (configuration: Configuration)
      ensures this.configuration == configuration
      ensures eventSubscriptions == [] && connection == None && channel == None
      ensures forall env: Environment :: env.Valid() ==> Valid(env)
    {
      this.configuration := configuration;
      eventSubscriptions := [];
      connection := None;
      channel := None;
    }

    /** `init`: connecting is deferred to `start`; nothing happens here. */
    method Init()
      ensures unchanged(this)
    {
    }

    /** `start`. `rejected` names the awaited broker call, if any, that the broker rejects; a
        rejection propagates out of `start` with the fields set so far. */
    method Start(env: Environment, rejected: Option<StartStep>) returns (r: Result<(), StartError>)
      requires Valid(env)
      modifies this, env
      ensures Valid(env)
      ensures r == StartResult(configuration, rejected)
      ensures env.log == old(env.log) + StartActions(configuration, rejected, old(env.nextId))
      ensures !UrlDefined(configuration) ==> unchanged(this) && unchanged(env)
      ensures connection ==
        if UrlDefined(configuration) && !Rejects(rejected, ConnectStep) then Some(Connection(configuration.url.value))
        else old(connection)
      ensures channel ==
        if UrlDefined(configuration) && !Rejects(rejected, ConnectStep) && !Rejects(rejected, ChannelStep)
        then Some(Channel(configuration.url.value))
        else old(channel)
      ensures r.Success? ==>
        eventSubscriptions == old(eventSubscriptions) + [Subscription(AllEvents, old(env.nextId))] &&
        env.live == old(env.live)[old(env.nextId) := AllEvents] &&
        env.nextId == old(env.nextId) + 1 &&
        old(env.nextId) !in old(env.live)
      ensures r.Failure? ==>
        eventSubscriptions == old(eventSubscriptions) && env.live == old(env.live) && env.nextId == old(env.nextId)
    {
      ghost var id := env.nextId;
      if !UrlDefined(configuration) {
        return Failure(UrlNotDefined);
      }
      var url := configuration.url;
      env.BrokerCall(Connect(url.value));
      if Rejects(rejected, ConnectStep) {
        assert StartActions(configuration, rejected, id) == [Connect(url.value)];
        assert Valid(env);
        return Failure(BrokerRejected(ConnectStep));
      }
      connection := Some(Connection(url.value));
      env.BrokerCall(CreateChannel);
      if Rejects(rejected, ChannelStep) {
        assert StartActions(configuration, rejected, id) == [Connect(url.value), CreateChannel];
        assert Valid(env);
        return Failure(BrokerRejected(ChannelStep));
      }
      channel := Some(Channel(url.value));
      var exchange := configuration.exchange;
      if exchange.Some? {
        env.BrokerCall(AssertExchange(exchange.value.name, TypeOf(exchange.value)));
        if Rejects(rejected, AssertStep) {
          assert StartActions(configuration, rejected, id) ==
            [Connect(url.value), CreateChannel, AssertExchange(exchange.value.name, TypeOf(exchange.value))];
          assert Valid(env);
          return Failure(BrokerRejected(AssertStep));
        }
      }
      ghost var before := env.log;
      var subscriptionId := env.BusSubscribe(AllEvents);
      assert env.log == before + [Subscribe(AllEvents, id)];
      AppendFreshId(eventSubscriptions, AllEvents, subscriptionId);
      eventSubscriptions := eventSubscriptions + [Subscription(AllEvents, subscriptionId)];
      r := Success(());
      assert Valid(env);
    }

    /** `handleEvent`. `buffered` is what the broker's `publish` reports; a false report is only
        logged. The module's own fields never change. */
    method HandleEvent(env: Environment, event: Event, buffered: bool) returns (r: PublishResult)
      modifies env
      ensures env.live == old(env.live) && env.nextId == old(env.nextId)
      ensures channel.None? ==> r == NoChannel && env.log == old(env.log)
      ensures channel.Some? ==>
        env.log == old(env.log) + [Publish(ExchangeName(configuration), event.namespace, PayloadOf(event))] &&
        r == (if buffered then Sent else NotBuffered)
      ensures old(Valid(env)) && eventSubscriptions != [] ==> r != NoChannel
    {
      if channel.None? {
        return NoChannel;
      }
      var data := PayloadOf(event);
      var exchangeName := ExchangeName(configuration);
      env.BrokerCall(Publish(exchangeName, event.namespace, data));
      r := if buffered then Sent else NotBuffered;
    }

    /** `stop`: revokes every recorded subscription, in list order, then closes the channel and the
        connection, each only if it exists; a rejected close is caught and only logged. Afterwards
        none of the recorded ids is live, and every other subscription on the bus is untouched. */
    method Stop(env: Environment)
      requires Valid(env)
      modifies env
      ensures Valid(env)
      ensures env.live == old(env.live) - IdsOf(eventSubscriptions)
      ensures forall i :: 0 <= i < |eventSubscriptions| ==> eventSubscriptions[i].subscriptionId !in env.live
      ensures env.log == old(env.log) + StopActions(eventSubscriptions, channel, connection)
      ensures env.nextId == old(env.nextId)
    {
      for i := 0 to |eventSubscriptions|
        invariant env.Valid() && env.nextId == old(env.nextId)
        invariant env.live == old(env.live) - IdsOf(eventSubscriptions[..i])
        invariant env.log == old(env.log) + UnsubscribeActions(eventSubscriptions[..i])
      {
        var subscription := eventSubscriptions[i];
        assert eventSubscriptions[..i + 1] == eventSubscriptions[..i] + [subscription];
        env.BusUnsubscribe(subscription.target, subscription.subscriptionId);
      }
      assert eventSubscriptions[..|eventSubscriptions|] == eventSubscriptions;
      if channel.Some? {
        env.BrokerCall(CloseChannel);
      }
      if connection.Some? {
        env.BrokerCall(CloseConnection);
      }
    }
  }

  /** A full lifecycle with one other subscriber on the bus: after `stop` only the other subscriber
      is left, and the calls were made in the order start, publish, stop. */
  method LifecycleScenario(url: string, other: string, event: Event)
    requires url != ""
  {
    var env := new Environment();
    var otherId := env.BusSubscribe(other);
    var c := Configuration(Some(url), None);
    var m := new PublisherModule(c);
    assert StartActions(c, None, 1) == [Connect(url), CreateChannel, Subscribe(AllEvents, 1)];
    var started := m.Start(env, None);
    assert started.Success?;
    assert env.log == [Subscribe(other, 0), Connect(url), CreateChannel, Subscribe(AllEvents, 1)];
    assert m.eventSubscriptions == [Subscription(AllEvents, 1)];
    var published := m.HandleEvent(env, event, false);
    assert published == NotBuffered;
    assert StopActions(m.eventSubscriptions, m.channel, m.connection) ==
      [Unsubscribe(AllEvents, 1), CloseChannel, CloseConnection];
    m.Stop(env);
    assert env.live == map[otherId := other];
    assert env.log == [Subscribe(other, 0), Connect(url), CreateChannel, Subscribe(AllEvents, 1),
                       Publish("", event.namespace, PayloadOf(event)), Unsubscribe(AllEvents, 1),
                       CloseChannel, CloseConnection];
  }

  /** A start whose channel is rejected leaves a connection but no channel and no subscription;
      `stop` then closes only the connection. */
  method PartialStartScenario(url: string, x: ExchangeConfig)
    requires url != ""
  {
    var env := new Environment();
    var c := Configuration(Some(url), Some(x));
    var m := new PublisherModule(c);
    assert UrlDefined(c) && !Rejects(Some(ChannelStep), ConnectStep) && Rejects(Some(ChannelStep), ChannelStep);
    assert StartResult(c, Some(ChannelStep)) == Failure(BrokerRejected(ChannelStep));
    assert StartActions(c, Some(ChannelStep), 0) == [Connect(url), CreateChannel];
    var started := m.Start(env, Some(ChannelStep));
    assert started == Failure(BrokerRejected(ChannelStep));
    assert env.log == [Connect(url), CreateChannel];
    assert m.connection.Some? && m.channel.None? && m.eventSubscriptions == [];
    assert m.Valid(env);
    assert StopActions(m.eventSubscriptions, m.channel, m.connection) == [CloseConnection];
    m.Stop(env);
    assert env.log == [Connect(url), CreateChannel, CloseConnection];
  }
}
