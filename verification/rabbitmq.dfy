/**
 * The message-broker client: a lazily opened connection and channel, and a
 * publish that connects first when it has no channel and silently drops the
 * message when it still has none. The broker library's outcomes are oracles:
 * each connect attempt says whether opening the connection and creating the
 * channel succeed.
 */
module RabbitMq {
  import opened Wrappers

  /** The topic exchange every message goes to. */
  const Exchange := "good-food-events"

  datatype Connection = Connection(id: nat)

  datatype Channel = Channel(id: nat)

  /**
   * What the broker library gives on one connect attempt: the new connection
   * (nothing when `amqp.connect` rejects) and the new channel (nothing when
   * `createChannel` rejects).
   */
  datatype Attempt = Attempt(connection: Option<Connection>, channel: Option<Channel>)

  datatype Message = Message(exchange: string, routingKey: string, body: string)

  /** The two nullable fields. */
  datatype State = State(connection: Option<Connection>, channel: Option<Channel>)

  const Initial := State(None, None)

  /** A channel is only ever created on an open connection. */
  predicate Consistent(s: State)
  {
    s.channel.Some? ==> s.connection.Some?
  }

  /**
   * `connect`: nothing when a connection exists; otherwise the connection is
   * stored as soon as it opens and the channel as soon as it is created, and
   * failures are swallowed, keeping whatever was stored before them.
   */
  function ConnectStep(s: State, a: Attempt): (t: State)
    ensures s.connection.Some? ==> t == s
    ensures s.connection.None? && a.connection.Some? && a.channel.Some? ==>
      t == State(a.connection, a.channel)
    ensures s.connection.None? && a.connection.None? ==> t == s
    ensures s.connection.None? && a.connection.Some? && a.channel.None? ==> t == s.(connection := a.connection)
    ensures Consistent(s) ==> Consistent(t)
  {
    if s.connection.Some? then s
    else if a.connection.None? then s
    else if a.channel.None? then s.(connection := a.connection)
    else State(a.connection, a.channel)
  }

  /**
   * `publish(routingKey, body)`: connect when there is no channel, then emit the
   * message to the exchange when there is a channel, and nothing otherwise.
   */
  function PublishStep(s: State, a: Attempt, routingKey: string, body: string): (r: (State, seq<Message>))
    ensures s.channel.Some? ==> r == (s, [Message(Exchange, routingKey, body)])
    ensures r.0 == (if s.channel.None? then ConnectStep(s, a) else s)
    ensures r.1 == (if r.0.channel.Some? then [Message(Exchange, routingKey, body)] else [])
    ensures |r.1| <= 1
  {
    var t := if s.channel.None? then ConnectStep(s, a) else s;
    (t, if t.channel.Some? then [Message(Exchange, routingKey, body)] else [])
  }

  /** Once connected, connecting again changes nothing. */
  lemma ConnectIdempotent(s: State, a: Attempt, b: Attempt)
    requires ConnectStep(s, a).connection.Some?
    ensures ConnectStep(ConnectStep(s, a), b) == ConnectStep(s, a)
  {
  }

  /** A first publish on a fresh client emits its message exactly when both broker calls succeed. */
  lemma FirstPublishConnects(a: Attempt, routingKey: string, body: string)
    ensures var r := PublishStep(Initial, a, routingKey, body);
      (r.1 == [Message(Exchange, routingKey, body)] <==> a.connection.Some? && a.channel.Some?)
      && (r.1 == [] <==> a.connection.None? || a.channel.None?)
  {
  }

  /** A call to `publish`: the attempt it would use to connect, the routing key and the body. */
  datatype PublishCall = PublishCall(attempt: Attempt, routingKey: string, body: string)

  /** A sequence of publishes, in order: the final state and every message emitted. */
  function PublishAll(s: State, calls: seq<PublishCall>): (State, seq<Message>)
    decreases |calls|
  {
    if calls == [] then (s, [])
    else
      var first := PublishStep(s, calls[0].attempt, calls[0].routingKey, calls[0].body);
      var rest := PublishAll(first.0, calls[1..]);
      (rest.0, first.1 + rest.1)
  }

  /**
   * The stuck state: when the connection opened but the channel was not
   * created, every later publish reconnects as a no-op and drops its message.
   */
  lemma {:induction false} StuckStateDropsAll(s: State, calls: seq<PublishCall>)
    requires s.connection.Some? && s.channel.None?
    ensures PublishAll(s, calls) == (s, [])
  {
    if calls != [] {
      var c := calls[0];
      assert PublishStep(s, c.attempt, c.routingKey, c.body) == (s, []);
      StuckStateDropsAll(s, calls[1..]);
      var none: seq<Message> := [];
      assert none + none == none;
    }
  }

  /** With a channel, every publish emits its own message, in order, and the state stays. */
  lemma {:induction false} ChannelPublishesAll(s: State, calls: seq<PublishCall>)
    requires s.channel.Some?
    ensures PublishAll(s, calls).0 == s
    ensures |PublishAll(s, calls).1| == |calls|
    ensures forall k :: 0 <= k < |calls| ==>
      PublishAll(s, calls).1[k] == Message(Exchange, calls[k].routingKey, calls[k].body)
  {
    if calls != [] {
      ChannelPublishesAll(s, calls[1..]);
      var rest := PublishAll(s, calls[1..]).1;
      assert PublishAll(s, calls).1 == [Message(Exchange, calls[0].routingKey, calls[0].body)] + rest;
    }
  }

  /** The client object with its two nullable fields and the messages it has handed to the broker. */
  class RabbitMqClient {
    var connection: Option<Connection>
    var channel: Option<Channel>
    var sent: seq<Message>

    function CurrentState(): State
      reads this
    {
      State(connection, channel)
    }

    constructor ()
      ensures CurrentState() == Initial && sent == []
    {
      connection := None;
      channel := None;
      sent := [];
    }

    method Connect(a: Attempt)
      modifies this
      ensures CurrentState() == ConnectStep(old(CurrentState()), a)
      ensures sent == old(sent)
    {
      if connection.Some? {
        return;
      }
      if a.connection.None? {
        return;
      }
      connection := a.connection;
      if a.channel.None? {
        return;
      }
      channel := a.channel;
    }

    method Publish(routingKey: string, body: string, a: Attempt)
      modifies this
      ensures var r := PublishStep(old(CurrentState()), a, routingKey, body);
        CurrentState() == r.0 && sent == old(sent) + r.1
    {
      if channel.None? {
        Connect(a);
      }
      if channel.Some? {
        sent := sent + [Message(Exchange, routingKey, body)];
      }
    }
  }
}
