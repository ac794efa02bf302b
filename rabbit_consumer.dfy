/**
 * The broker-side consumer: a builder that fills one consumer object in place,
 * `consume()` with its connection, passive queue checks and auto-ack
 * subscription, and the per-delivery handler (optional verbatim backup
 * republish, then observer notification). Calls on the broker client are
 * recorded, in order, in `effects`; what the broker answers is supplied from
 * outside.
 */
module Rabbit {
  import opened Common

  const ConnectFailure: string := "Couldn't connect to RabbitMQ"
  /** The default exchange, which routes by queue name. */
  const DefaultExchange: string := ""

  /** The string `new String(body)` makes of a body; charset decoding is not modelled. */
  datatype Text = DecodedText(body: seq<byte>)

  /** A call on the broker client, or on the inherited observable. */
  datatype BrokerEffect =
    | NewConnection(host: Option<string>, port: int, username: Option<string>, password: Option<string>, virtualHost: Option<string>)
    | DeclarePassive(queue: Option<string>)
    | BasicConsume(queue: Option<string>, autoAck: bool)
    | Publish(exchange: string, routingKey: string, body: seq<byte>)
    /**
     * `notifyObservers(arg)`; `changedWasSet` is whether the changed flag was
     * set, which is what makes the registered observers (if any) run.
     */
    | NotifyObservers(arg: Text, changedWasSet: bool)

  /** The consumer's settings; None stands for null. */
  datatype Settings = Settings(
    host: Option<string>,
    port: int,
    username: Option<string>,
    password: Option<string>,
    virtualHost: Option<string>,
    queue: Option<string>,
    backupQueue: Option<string>)

  /** The settings of a new consumer: Java's default field values. */
  const Unset := Settings(None, 0, None, None, None, None, None)

  /** What the broker does with the connection request. */
  datatype ConnectOutcome = Opened | IOFailure | TimeoutFailure

  datatype ConsumeError =
    | IOException(message: string)
    | TimeoutException(message: string)
    /** The client's IOException from a passive declaration of a queue that does not exist. */
    | DeclareFailed(queue: Option<string>)
    /** The client's IOException from `basicConsume`. */
    | SubscribeFailed(queue: Option<string>)

  datatype ConsumeResult = Consuming | Failed(error: ConsumeError)

  /**
   * The calls made for one delivery: the verbatim backup copy first, when a
   * backup queue is set, then the notification (which, with the observable's
   * changed flag clear, calls no observer).
   */
  function DeliveryEffects(backupQueue: Option<string>, body: seq<byte>): seq<BrokerEffect> {
    (if backupQueue.Some? then [Publish(DefaultExchange, backupQueue.value, body)] else []) +
    [NotifyObservers(DecodedText(body), false)]
  }

  /** The calls made for a series of deliveries, in order. */
  function Deliveries(backupQueue: Option<string>, bodies: seq<seq<byte>>): seq<BrokerEffect> {
    if bodies == [] then []
    else Deliveries(backupQueue, bodies[..|bodies| - 1]) + DeliveryEffects(backupQueue, bodies[|bodies| - 1])
  }

  /**
   * With a backup queue, delivery `i` yields exactly two calls: a byte-identical
   * copy on the default exchange routed to the backup queue, then the
   * notification with that body as text; no observer is ever called.
   */
  lemma {:induction false} DeliveriesWithBackup(backupQueue: string, bodies: seq<seq<byte>>)
    ensures |Deliveries(Some(backupQueue), bodies)| == 2 * |bodies|
    ensures forall i :: 0 <= i < |bodies| ==>
      && Deliveries(Some(backupQueue), bodies)[2 * i] == Publish(DefaultExchange, backupQueue, bodies[i])
      && Deliveries(Some(backupQueue), bodies)[2 * i + 1] == NotifyObservers(DecodedText(bodies[i]), false)
  {
    if bodies != [] {
      var n := |bodies| - 1;
      DeliveriesWithBackup(backupQueue, bodies[..n]);
      var d := Deliveries(Some(backupQueue), bodies);
      var dp := Deliveries(Some(backupQueue), bodies[..n]);
      assert d == dp + [Publish(DefaultExchange, backupQueue, bodies[n]), NotifyObservers(DecodedText(bodies[n]), false)];
      forall i | 0 <= i < |bodies|
        ensures d[2 * i] == Publish(DefaultExchange, backupQueue, bodies[i])
        ensures d[2 * i + 1] == NotifyObservers(DecodedText(bodies[i]), false)
      {
        if i < n {
          assert bodies[..n][i] == bodies[i];
        }
      }
    }
  }

  /** Without a backup queue, nothing is republished: delivery `i` yields only its notification. */
  lemma {:induction false} DeliveriesWithoutBackup(bodies: seq<seq<byte>>)
    ensures |Deliveries(None, bodies)| == |bodies|
    ensures forall i :: 0 <= i < |bodies| ==>
      Deliveries(None, bodies)[i] == NotifyObservers(DecodedText(bodies[i]), false)
  {
    if bodies != [] {
      var n := |bodies| - 1;
      DeliveriesWithoutBackup(bodies[..n]);
      forall i | 0 <= i < n
        ensures Deliveries(None, bodies)[i] == NotifyObservers(DecodedText(bodies[i]), false)
      {
        assert bodies[..n][i] == bodies[i];
      }
    }
  }

  /**
   * The consumer. It extends `java.util.Observable`, of which only the changed
   * flag matters here: nothing in the class sets it, so it stays clear.
   */
  class RabbitMQ {
    var host: Option<string>
    var port: int
    var username: Option<string>
    var password: Option<string>
    var virtualHost: Option<string>
    var queue: Option<string>
    var backupQueue: Option<string>
    /** Observable's changed flag. */
    var changed: bool
    /** Whether `basicConsume` registered the delivery handler. */
    var consuming: bool
    var effects: seq<BrokerEffect>

    ghost predicate Valid()
      reads this
    {
      !changed
    }

    function Current(): Settings
      reads this
    {
      Settings(host, port, username, password, virtualHost, queue, backupQueue)
    }

    constructor ()
      ensures Valid() && Current() == Unset && !consuming && effects == []
    {
      host, port, username, password := None, 0, None, None;
      virtualHost, queue, backupQueue := None, None, None;
      changed := false;
      consuming := false;
      effects := [];
    }

    /**
     * `consume()`: connect (a failure is rethrown as the same kind of
     * exception with a fixed message), passively declare the queue and, only
     * when one is set, the backup queue (a missing queue ends with the
     * client's IOException; nothing is ever created), then subscribe to the
     * queue with automatic acknowledgement.
     */
    method Consume(connect: ConnectOutcome, queueExists: bool, backupExists: bool, subscribeOk: bool) returns (r: ConsumeResult)
      requires Valid()
      modifies this
      ensures Valid() && Current() == old(Current())
      ensures |effects| > |old(effects)| && effects[|old(effects)|] == NewConnection(host, port, username, password, virtualHost)
      ensures connect == IOFailure ==> r == Failed(IOException(ConnectFailure))
      ensures connect == TimeoutFailure ==> r == Failed(TimeoutException(ConnectFailure))
      ensures connect != Opened ==> effects == old(effects) + [NewConnection(host, port, username, password, virtualHost)]
      ensures connect == Opened && !queueExists ==>
        && r == Failed(DeclareFailed(queue))
        && effects == old(effects) + [NewConnection(host, port, username, password, virtualHost), DeclarePassive(queue)]
      ensures connect == Opened && queueExists && backupQueue.Some? && !backupExists ==>
        && r == Failed(DeclareFailed(backupQueue))
        && effects == old(effects) + [NewConnection(host, port, username, password, virtualHost), DeclarePassive(queue), DeclarePassive(backupQueue)]
      ensures connect == Opened && queueExists && (backupQueue.Some? ==> backupExists) ==>
        && r == (if subscribeOk then Consuming else Failed(SubscribeFailed(queue)))
        && effects == old(effects) + [NewConnection(host, port, username, password, virtualHost), DeclarePassive(queue)]
                      + (if backupQueue.Some? then [DeclarePassive(backupQueue)] else [])
                      + [BasicConsume(queue, true)]
      ensures consuming == (old(consuming) || r == Consuming)
    {
      effects := effects + [NewConnection(host, port, username, password, virtualHost)];
      if connect == IOFailure {
        return Failed(IOException(ConnectFailure));
      } else if connect == TimeoutFailure {
        return Failed(TimeoutException(ConnectFailure));
      }
      effects := effects + [DeclarePassive(queue)];
      if !queueExists {
        return Failed(DeclareFailed(queue));
      }
      if backupQueue.Some? {
        effects := effects + [DeclarePassive(backupQueue)];
        if !backupExists {
          return Failed(DeclareFailed(backupQueue));
        }
      }
      effects := effects + [BasicConsume(queue, true)];
      if !subscribeOk {
        return Failed(SubscribeFailed(queue));
      }
      consuming := true;
      r := Consuming;
    }

    /** `java.util.Observable.notifyObservers`: observers run only when the changed flag is set. */
    method NotifyObservers(arg: Text)
      modifies this
      ensures !changed && Current() == old(Current()) && consuming == old(consuming)
      ensures effects == old(effects) + [BrokerEffect.NotifyObservers(arg, old(changed))]
    {
      var called := changed;
      if changed {
        changed := false;
      }
      effects := effects + [BrokerEffect.NotifyObservers(arg, called)];
    }

    /**
     * `handleDelivery`: republish the body unchanged to the backup queue when
     * one is set, then notify observers with the body as text. When the
     * republish throws (`publishOk` false), the IOException leaves the handler
     * and this delivery is not notified; `handled` is false exactly then.
     */
    method HandleDelivery(body: seq<byte>, publishOk: bool) returns (handled: bool)
      requires Valid() && consuming
      modifies this
      ensures Valid() && Current() == old(Current()) && consuming
      ensures handled <==> backupQueue.None? || publishOk
      ensures handled ==> effects == old(effects) + DeliveryEffects(backupQueue, body)
      ensures !handled ==> effects == old(effects) + [Publish(DefaultExchange, backupQueue.value, body)]
    {
      if backupQueue.Some? {
        effects := effects + [Publish(DefaultExchange, backupQueue.value, body)];
        if !publishOk {
          return false;
        }
      }
      NotifyObservers(DecodedText(body));
      handled := true;
    }
  }

  /** The consumer builder: every setter writes one field of its own consumer; `build()` returns that consumer. */
  class RabbitBuilder {
    const internal: RabbitMQ

    constructor ()
      ensures fresh(internal) && internal.Valid() && internal.Current() == Unset
      ensures !internal.consuming && internal.effects == []
    {
      internal := new RabbitMQ();
    }

    method SetHost(host: Option<string>) returns (b: RabbitBuilder)
      modifies internal
      ensures b == this && internal.Current() == old(internal.Current()).(host := host)
      ensures internal.changed == old(internal.changed) && internal.consuming == old(internal.consuming)
      ensures internal.effects == old(internal.effects)
    {
      internal.host := host;
      b := this;
    }

    method SetPort(port: int) returns (b: RabbitBuilder)
      modifies internal
      ensures b == this && internal.Current() == old(internal.Current()).(port := port)
      ensures internal.changed == old(internal.changed) && internal.consuming == old(internal.consuming)
      ensures internal.effects == old(internal.effects)
    {
      internal.port := port;
      b := this;
    }

    method SetUsername(username: Option<string>) returns (b: RabbitBuilder)
      modifies internal
      ensures b == this && internal.Current() == old(internal.Current()).(username := username)
      ensures internal.changed == old(internal.changed) && internal.consuming == old(internal.consuming)
      ensures internal.effects == old(internal.effects)
    {
      internal.username := username;
      b := this;
    }

    method SetPassword(password: Option<string>) returns (b: RabbitBuilder)
      modifies internal
      ensures b == this && internal.Current() == old(internal.Current()).(password := password)
      ensures internal.changed == old(internal.changed) && internal.consuming == old(internal.consuming)
      ensures internal.effects == old(internal.effects)
    {
      internal.password := password;
      b := this;
    }

    method SetVirtualHost(virtualHost: Option<string>) returns (b: RabbitBuilder)
      modifies internal
      ensures b == this && internal.Current() == old(internal.Current()).(virtualHost := virtualHost)
      ensures internal.changed == old(internal.changed) && internal.consuming == old(internal.consuming)
      ensures internal.effects == old(internal.effects)
    {
      internal.virtualHost := virtualHost;
      b := this;
    }

    method SetQueue(queue: Option<string>) returns (b: RabbitBuilder)
      modifies internal
      ensures b == this && internal.Current() == old(internal.Current()).(queue := queue)
      ensures internal.changed == old(internal.changed) && internal.consuming == old(internal.consuming)
      ensures internal.effects == old(internal.effects)
    {
      internal.queue := queue;
      b := this;
    }

    method SetBackupQueue(backupQueue: Option<string>) returns (b: RabbitBuilder)
      modifies internal
      ensures b == this && internal.Current() == old(internal.Current()).(backupQueue := backupQueue)
      ensures internal.changed == old(internal.changed) && internal.consuming == old(internal.consuming)
      ensures internal.effects == old(internal.effects)
    {
      internal.backupQueue := backupQueue;
      b := this;
    }

    /** Returns the builder's own consumer, not a copy. */
    method Build() returns (r: RabbitMQ)
      ensures r == internal
    {
      r := internal;
    }
  }
}
